/** The `validate_page_structure` tool: an ordered list of substring checks
    per snippet type, each of which adds its message to `issues` when the
    snippet contains none of the strings it looks for, and the reply text
    built from `issues`. */
module Validation {
  import opened Text
  import opened Replace
  import opened Templates

  /** A check passes when the code contains at least one of `anyOf`. */
  datatype Check = Check(anyOf: seq<string>, message: string)

  const TitleMissing := "❌ 缺少 title: null 配置"
  const ChildrenMissing := "❌ 缺少正确的 children 配置"
  const ContentStyleMissing := "❌ 缺少 childrenContentStyle 配置"
  const ApiNamingIssue := "❌ API函数命名不符合规范（应包含List、add、update、del等）"
  const RequestMissing := "❌ 未使用统一的request函数"
  const HookNamingIssue := "❌ Hook命名必须以use开头"
  const ReactQueryAdvice := "⚠️ 建议使用React Query进行数据管理"

  const Success := "✅ 代码结构符合规范！"
  const IssuesHeader := "发现以下问题：\n"

  /** The snippet types that have checks; every other type, `component`
      included, has none. */
  const CheckedKinds: set<string> := {"page", "api", "hook"}

  /** The checks for a snippet type, in the order the handler runs them. */
  function Checks(kind: string): (r: seq<Check>)
    ensures r == [] <==> kind !in CheckedKinds
  {
    if kind == "page" then
      [ Check(["title: null"], TitleMissing),
        Check(["children: <div className=\"h-0 w-0\" />"], ChildrenMissing),
        Check(["childrenContentStyle"], ContentStyleMissing) ]
    else if kind == "api" then
      [ Check(["List", "add", "update", "del"], ApiNamingIssue),
        Check(["request("], RequestMissing) ]
    else if kind == "hook" then
      [ Check(["use"], HookNamingIssue),
        Check(["useQuery", "useMutation"], ReactQueryAdvice) ]
    else []
  }

  predicate Passes(c: Check, code: string) {
    exists j :: 0 <= j < |c.anyOf| && Includes(code, c.anyOf[j])
  }

  /** The check's message if it fails, nothing if it passes. */
  function Issue(c: Check, code: string): seq<string> {
    if Passes(c, code) then [] else [c.message]
  }

  /** Reference: the messages of the failing checks, in check order. */
  function Issues(cs: seq<Check>, code: string): seq<string>
    decreases |cs|
  {
    if cs == [] then []
    else Issue(cs[0], code) + Issues(cs[1..], code)
  }

  /** The handler's own sequence of `if (!code.includes(…)) issues.push(…)`. */
  method CheckStructure(code: string, kind: string) returns (issues: seq<string>)
    ensures issues == Issues(Checks(kind), code)
  {
    var cs := Checks(kind);
    issues := [];
    if kind == "page" {
      PassesOne("title: null", TitleMissing, code);
      PassesOne("children: <div className=\"h-0 w-0\" />", ChildrenMissing, code);
      PassesOne("childrenContentStyle", ContentStyleMissing, code);
      if !Includes(code, "title: null") {
        issues := issues + [TitleMissing];
      }
      assert issues == Issue(cs[0], code);
      if !Includes(code, "children: <div className=\"h-0 w-0\" />") {
        issues := issues + [ChildrenMissing];
      }
      assert issues == Issue(cs[0], code) + Issue(cs[1], code);
      if !Includes(code, "childrenContentStyle") {
        issues := issues + [ContentStyleMissing];
      }
      assert issues == Issue(cs[0], code) + Issue(cs[1], code) + Issue(cs[2], code);
      IssuesOfThree(cs, code);
    } else if kind == "api" {
      PassesFour("List", "add", "update", "del", ApiNamingIssue, code);
      PassesOne("request(", RequestMissing, code);
      if !Includes(code, "List") && !Includes(code, "add") && !Includes(code, "update") && !Includes(code, "del") {
        issues := issues + [ApiNamingIssue];
      }
      assert issues == Issue(cs[0], code);
      if !Includes(code, "request(") {
        issues := issues + [RequestMissing];
      }
      assert issues == Issue(cs[0], code) + Issue(cs[1], code);
      IssuesOfTwo(cs, code);
    } else if kind == "hook" {
      PassesOne("use", HookNamingIssue, code);
      PassesTwo("useQuery", "useMutation", ReactQueryAdvice, code);
      if !Includes(code, "use") {
        issues := issues + [HookNamingIssue];
      }
      assert issues == Issue(cs[0], code);
      if !Includes(code, "useQuery") && !Includes(code, "useMutation") {
        issues := issues + [ReactQueryAdvice];
      }
      assert issues == Issue(cs[0], code) + Issue(cs[1], code);
      IssuesOfTwo(cs, code);
    }
  }

  lemma PassesOne(w: string, m: string, code: string)
    ensures Passes(Check([w], m), code) <==> Includes(code, w)
  {
    assert Check([w], m).anyOf[0] == w;
  }

  lemma PassesTwo(w0: string, w1: string, m: string, code: string)
    ensures Passes(Check([w0, w1], m), code) <==> Includes(code, w0) || Includes(code, w1)
  {
    var ws := Check([w0, w1], m).anyOf;
    assert ws[0] == w0 && ws[1] == w1;
  }

  lemma PassesFour(w0: string, w1: string, w2: string, w3: string, m: string, code: string)
    ensures Passes(Check([w0, w1, w2, w3], m), code)
       <==> Includes(code, w0) || Includes(code, w1) || Includes(code, w2) || Includes(code, w3)
  {
    var ws := Check([w0, w1, w2, w3], m).anyOf;
    assert ws[0] == w0 && ws[1] == w1 && ws[2] == w2 && ws[3] == w3;
  }

  lemma IssuesOfTwo(cs: seq<Check>, code: string)
    requires |cs| == 2
    ensures Issues(cs, code) == Issue(cs[0], code) + Issue(cs[1], code)
  {
    assert cs[1..][0] == cs[1] && cs[1..][1..] == [];
    assert Issues(cs[1..], code) == Issue(cs[1], code) + Issues([], code);
  }

  lemma IssuesOfThree(cs: seq<Check>, code: string)
    requires |cs| == 3
    ensures Issues(cs, code) == Issue(cs[0], code) + Issue(cs[1], code) + Issue(cs[2], code)
  {
    assert cs[1..][1..] == cs[2..];
    IssuesOfTwo(cs[1..], code);
  }

  /** The reply: the success line when nothing failed, otherwise the header
      followed by the issues, one per line. */
  function Report(issues: seq<string>): (r: string)
    ensures r == Success <==> issues == []
    ensures issues != [] ==> r == IssuesHeader + Join(issues, "\n")
  {
    if |issues| == 0 then Success
    else
      assert (IssuesHeader + Join(issues, "\n"))[0] != Success[0];
      IssuesHeader + Join(issues, "\n")
  }

  /** What `validate_page_structure` answers for a snippet of a checked type. */
  function Validate(code: string, kind: string): string {
    Report(Issues(Checks(kind), code))
  }

  // Properties of the checks

  /** At most one issue per check. */
  lemma {:induction false} IssuesBounded(cs: seq<Check>, code: string)
    ensures |Issues(cs, code)| <= |cs|
    decreases |cs|
  {
    if cs != [] {
      IssuesBounded(cs[1..], code);
    }
  }

  /** With distinct messages, a check's message is among the issues exactly
      when that check fails. */
  lemma {:induction false} IssueIffFails(cs: seq<Check>, code: string, k: nat)
    requires k < |cs|
    requires forall a, b :: 0 <= a < b < |cs| ==> cs[a].message != cs[b].message
    ensures cs[k].message in Issues(cs, code) <==> !Passes(cs[k], code)
    decreases |cs|
  {
    if k == 0 {
      NotAmongIssues(cs[1..], code, cs[0].message);
    } else {
      IssueIffFails(cs[1..], code, k - 1);
    }
  }

  lemma {:induction false} NotAmongIssues(cs: seq<Check>, code: string, m: string)
    requires forall a :: 0 <= a < |cs| ==> cs[a].message != m
    ensures m !in Issues(cs, code)
    decreases |cs|
  {
    if cs != [] {
      NotAmongIssues(cs[1..], code, m);
    }
  }

  lemma DistinctMessages(kind: string)
    ensures forall a, b :: 0 <= a < b < |Checks(kind)| ==> Checks(kind)[a].message != Checks(kind)[b].message
  {
  }

  /** The empty snippet holds none of the page markers, so as a page it has
      all three issues, in check order. */
  lemma EmptyPageIssues()
    ensures Issues(Checks("page"), "") == [TitleMissing, ChildrenMissing, ContentStyleMissing]
    ensures Validate("", "page") == IssuesHeader + TitleMissing + "\n" + ChildrenMissing + "\n" + ContentStyleMissing
  {
    var cs := Checks("page");
    forall k | 0 <= k < |cs| ensures !Passes(cs[k], "") {
      NothingInEmpty(cs[k].anyOf);
    }
    assert cs[1..][1..] == cs[2..];
    assert cs[2..][1..] == [];
    JoinCons(TitleMissing, [ChildrenMissing, ContentStyleMissing], "\n");
    JoinCons(ChildrenMissing, [ContentStyleMissing], "\n");
  }

  lemma NothingInEmpty(ws: seq<string>)
    requires forall j :: 0 <= j < |ws| ==> ws[j] != ""
    ensures !(exists j :: 0 <= j < |ws| && Includes("", ws[j]))
  {
  }

  /** A hook snippet without "use" has both issues: it holds neither
      "useQuery" nor "useMutation" either. */
  lemma HookWithoutUse(code: string)
    requires !Includes(code, "use")
    ensures Issues(Checks("hook"), code) == [HookNamingIssue, ReactQueryAdvice]
  {
    var cs := Checks("hook");
    assert "useQuery" == "use" + "Query";
    assert "useMutation" == "use" + "Mutation";
    IncludesPrefixOf(code, "use", "Query");
    IncludesPrefixOf(code, "use", "Mutation");
    PassesOne("use", HookNamingIssue, code);
    PassesTwo("useQuery", "useMutation", ReactQueryAdvice, code);
    IssuesOfTwo(cs, code);
  }

  /** `component` and every unchecked type always succeed. */
  lemma UncheckedKindsPass(kind: string, code: string)
    requires kind !in CheckedKinds
    ensures Validate(code, kind) == Success
  {
  }

  // Generated templates pass their own validation

  lemma AllPass(cs: seq<Check>, code: string)
    requires forall k :: 0 <= k < |cs| ==> Passes(cs[k], code)
    ensures Issues(cs, code) == []
  {
    if cs != [] {
      AllPass(cs[1..], code);
    }
  }

  /** The page template holds all three markers whatever the name: the
      replace writes only where `[PageName]` stands. */
  lemma GeneratedPagePasses(name: string)
    ensures Validate(GenerateTemplate("page", name).value, "page") == Success
  {
    var code := GenerateTemplate("page", name).value;
    var ps, pascal := BasicPagePieces, UpperFirst(name);
    assert code == ReplaceAll(Render(ps), Token(PageName), pascal);
    PageTitlePiece();
    PageChildrenPiece();
    PageContentStylePiece();
    ReplaceAllKeepsText(ps, PageName, pascal, 31, "title: null");
    ReplaceAllKeepsText(ps, PageName, pascal, 34, "children: <div className=\"h-0 w-0\" />");
    ReplaceAllKeepsText(ps, PageName, pascal, 37, "childrenContentStyle");
    PassesOne("title: null", TitleMissing, code);
    PassesOne("children: <div className=\"h-0 w-0\" />", ChildrenMissing, code);
    PassesOne("childrenContentStyle", ContentStyleMissing, code);
    IssuesOfThree(Checks("page"), code);
  }

  /** The api code holds "List" and "request(", whatever the name. */
  lemma ApiMarkers(name: string)
    ensures Includes(GenerateTemplate("api", name).value, "List")
    ensures Includes(GenerateTemplate("api", name).value, "request(")
  {
    ApiListPiece();
    ApiRequestPiece();
    ModelMarker(ApiTemplatePieces, name, 11, "List");
    ModelMarker(ApiTemplatePieces, name, 49, "request(");
  }

  /** The generated api code passes api validation, whatever the name. */
  lemma GeneratedApiPasses(name: string)
    ensures Validate(GenerateTemplate("api", name).value, "api") == Success
  {
    var code := GenerateTemplate("api", name).value;
    ApiMarkers(name);
    PassesFour("List", "add", "update", "del", ApiNamingIssue, code);
    PassesOne("request(", RequestMissing, code);
    IssuesOfTwo(Checks("api"), code);
  }

  /** The hook code holds "useQuery", and so "use", whatever the name. */
  lemma HookMarkers(name: string)
    ensures Includes(GenerateTemplate("hook", name).value, "use")
    ensures Includes(GenerateTemplate("hook", name).value, "useQuery")
  {
    HookQueryPiece();
    ModelMarker(HookTemplatePieces, name, 1, "use");
    ModelMarker(HookTemplatePieces, name, 1, "useQuery");
  }

  /** The generated hook code passes hook validation, whatever the name. */
  lemma GeneratedHookPasses(name: string)
    ensures Validate(GenerateTemplate("hook", name).value, "hook") == Success
  {
    var code := GenerateTemplate("hook", name).value;
    HookMarkers(name);
    PassesOne("use", HookNamingIssue, code);
    PassesTwo("useQuery", "useMutation", ReactQueryAdvice, code);
    IssuesOfTwo(Checks("hook"), code);
  }
}
