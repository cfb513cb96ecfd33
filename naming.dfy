/** The `get_naming_suggestions` tool: the description is lower-cased and
    split on whitespace runs, and the words are turned into names according
    to the requested type. */
module Naming {
  import opened Text

  /** `description.toLowerCase().split(/\s+/)`. */
  function Words(description: string): (r: seq<string>)
    ensures |r| >= 1
    ensures forall k :: 0 <= k < |r| ==> NoSpace(r[k]) && Lowered(r[k])
  {
    var lower := ToLower(description);
    assert Lowered(lower);
    SplitLowered(lower);
    Split(lower)
  }

  /** `words[0] || "item"`: only an empty first word falls back. */
  function MainWord(words: seq<string>): (r: string)
    requires |words| >= 1
    ensures r != ""
    ensures words[0] != "" ==> r == words[0]
  {
    if words[0] == "" then "item" else words[0]
  }

  /** The first word is empty exactly when the description is empty or
      starts with whitespace. */
  lemma MainWordFallback(description: string)
    ensures MainWord(Words(description)) == "item"
        <==> description == [] || IsSpace(description[0]) || Words(description)[0] == "item"
  {
    var lower := ToLower(description);
    if description != [] {
      IsSpaceToLower(description[0]);
      assert lower[0] == ToLowerChar(description[0]);
    }
  }

  /** A leading blank is not discarded: `" user"` splits into an empty first
      word and `user`, so the api names fall back to `item` and the file
      name starts with a dash. */
  lemma LeadingBlankKeepsEmptyWord()
    ensures Words(" user") == ["", "user"]
    ensures Suggestions(" user", "api")[0] == "itemList"
    ensures Suggestions(" user", "file") == ["-user"]
  {
    LeadingBlankWords();
    FileSuggestion(" user");
    assert Join(["", "user"], "-") == "-user";
  }

  lemma LeadingBlankWords()
    ensures Words(" user") == ["", "user"]
  {
    LowerUser();
    SplitWord("user");
    SplitBlankFirst("user");
  }

  lemma LowerUser()
    ensures ToLower(" user") == " " + "user"
  {
    var s := " user";
    forall i | 0 <= i < |s| ensures ToLowerChar(s[i]) == s[i] {
    }
    assert ToLower(s) == s;
  }

  /** `words.map(w => w.charAt(0).toUpperCase() + w.slice(1)).join("")`. */
  function PascalCase(words: seq<string>): string
    decreases |words|
  {
    if words == [] then "" else UpperFirst(words[0]) + PascalCase(words[1..])
  }

  /** The suggestions for each type; an unlisted type has none. */
  function Suggestions(description: string, kind: string): (r: seq<string>)
    ensures kind == "api" ==> |r| == 5
    ensures kind in {"component", "hook", "file"} ==> |r| == 1
    ensures kind !in {"api", "component", "hook", "file"} ==> r == []
  {
    var words := Words(description);
    var main := MainWord(words);
    var cap := UpperFirst(main);
    if kind == "api" then
      [main + "List", "add" + cap, "update" + cap, "del" + cap, "get" + cap + "ById"]
    else if kind == "component" then [PascalCase(words)]
    else if kind == "hook" then ["use" + PascalCase(words)]
    else if kind == "file" then [Join(words, "-")]
    else []
  }

  /** `suggestions.map(s => "• " + s)`. */
  function Bullets(suggestions: seq<string>): (r: seq<string>)
    ensures |r| == |suggestions|
    ensures forall k :: 0 <= k < |r| ==> r[k] == "• " + suggestions[k]
  {
    seq(|suggestions|, k requires 0 <= k < |suggestions| => "• " + suggestions[k])
  }

  /** The reply: a header naming the description and the type, then one
      bullet line per suggestion. */
  function NamingReply(description: string, kind: string): string {
    "根据描述\"" + description + "\"，建议的" + kind + "命名：\n" + Join(Bullets(Suggestions(description, kind)), "\n")
  }

  // Properties

  /** The five api names share the main word, capitalised after a verb. */
  lemma ApiSuggestionsShape(description: string)
    ensures var x := MainWord(Words(description));
      Suggestions(description, "api") == [x + "List", "add" + UpperFirst(x), "update" + UpperFirst(x),
                                          "del" + UpperFirst(x), "get" + UpperFirst(x) + "ById"]
    ensures Suggestions("", "api") == ["itemList", "addItem", "updateItem", "delItem", "getItemById"]
  {
    assert ToLower("") == "";
    assert Words("") == [""];
    assert ToUpperChar('i') == 'I';
    assert UpperFirst("item") == "Item";
    assert "item" + "List" == "itemList" && "add" + "Item" == "addItem";
    assert "update" + "Item" == "updateItem" && "del" + "Item" == "delItem";
    assert "get" + "Item" + "ById" == "getItemById";
  }

  /** The hook name is "use" followed by the component name. */
  lemma HookIsUseComponent(description: string)
    ensures Suggestions(description, "hook") == ["use" + Suggestions(description, "component")[0]]
  {
  }

  /** The fallback is for the api names only: the file name from an empty
      description is empty, and so is the component name. */
  lemma EmptyDescriptionNames()
    ensures Suggestions("", "file") == [""]
    ensures Suggestions("", "component") == [""]
    ensures Suggestions("", "hook") == ["use"]
  {
    assert ToLower("") == "";
    assert Words("") == [""];
    assert PascalCase([""]) == "" + PascalCase([]);
    assert "use" + "" == "use";
  }

  /** The file name is the lower-cased description with each whitespace run
      replaced by one `-`. */
  lemma FileNameReplacesRuns(description: string)
    ensures Suggestions(description, "file") == [ReplaceRuns(ToLower(description), "-")]
  {
    JoinSplit(ToLower(description), "-");
  }

  lemma {:induction false} LowerPascalCase(words: seq<string>)
    requires forall k :: 0 <= k < |words| ==> Lowered(words[k])
    ensures ToLower(PascalCase(words)) == Join(words, "")
    decreases |words|
  {
    if words != [] {
      LowerPascalCase(words[1..]);
      LowerOfConcat(UpperFirst(words[0]), PascalCase(words[1..]));
      LowerUpperFirst(words[0]);
      if |words| > 1 {
        assert words == [words[0]] + words[1..];
        JoinCons(words[0], words[1..], "");
      } else {
        assert PascalCase(words[1..]) == "";
      }
    }
  }

  /** The component name differs from the description with its whitespace
      removed only in the case of letters: lower-cased, the two agree. */
  lemma ComponentNameDropsSpaces(description: string)
    ensures ToLower(Suggestions(description, "component")[0]) == ReplaceRuns(ToLower(description), "")
  {
    var words := Words(description);
    LowerPascalCase(words);
    JoinSplit(ToLower(description), "");
  }

  lemma {:induction false} PascalCaseNoSpace(words: seq<string>)
    requires forall k :: 0 <= k < |words| ==> NoSpace(words[k])
    ensures NoSpace(PascalCase(words))
    decreases |words|
  {
    if words != [] {
      PascalCaseNoSpace(words[1..]);
      var w := words[0];
      if w != [] {
        assert UpperFirst(w)[0] == ToUpperChar(w[0]);
        IsSpaceToUpper(w[0]);
      }
      assert NoSpace(UpperFirst(w));
    }
  }

  /** Component and hook names hold no whitespace. */
  lemma ComponentNameIsOneWord(description: string)
    ensures NoSpace(Suggestions(description, "component")[0])
    ensures NoSpace(Suggestions(description, "hook")[0])
  {
    var words := Words(description);
    PascalCaseNoSpace(words);
    assert forall i :: 0 <= i < 3 ==> !IsSpace("use"[i]);
  }

  /** Words joined by single blanks come back as the file name joined by
      dashes: lower-case words without whitespace, none empty but possibly
      the first and the last. */
  lemma FileNameOfWords(words: seq<string>)
    requires |words| >= 1
    requires forall k :: 0 <= k < |words| ==> NoSpace(words[k]) && Lowered(words[k])
    requires forall k :: 0 < k < |words| - 1 ==> words[k] != ""
    ensures Suggestions(Join(words, " "), "file") == [Join(words, "-")]
  {
    var d := Join(words, " ");
    LowerJoinLowered(words);
    SplitJoin(words);
    assert Words(d) == words;
    FileSuggestion(d);
  }

  lemma FileSuggestion(description: string)
    ensures Suggestions(description, "file") == [Join(Words(description), "-")]
  {
  }

  lemma {:induction false} LowerJoinLowered(words: seq<string>)
    requires forall k :: 0 <= k < |words| ==> Lowered(words[k])
    ensures ToLower(Join(words, " ")) == Join(words, " ")
    decreases |words|
  {
    if |words| > 1 {
      LowerJoinLowered(words[1..]);
      LowerOfConcat(words[0] + " ", Join(words[1..], " "));
      LowerOfConcat(words[0], " ");
    }
  }

  /** Without a listed type the reply is the header alone. */
  lemma UnlistedTypeReply(description: string, kind: string)
    requires kind !in {"api", "component", "hook", "file"}
    ensures NamingReply(description, kind) == "根据描述\"" + description + "\"，建议的" + kind + "命名：\n"
  {
  }
}
