/** The three `PAGE_TEMPLATES` and the `generate_page_template` tool.

    A template is kept as a sequence of pieces: literal text, and holes where
    a placeholder token (`[PageName]`, `[ModelName]`, `[modelName]`) stands.
    Rendering the pieces gives the template string exactly as the source
    spells it. The literal pieces are `Fragment`s: text in which no
    placeholder can start, which is what lets the proofs follow each global
    replace piece by piece. */
module Templates {
  import opened Text
  import opened Replace
  import opened Results

  datatype Placeholder = PageName | ModelName | CamelModelName

  /** The token a placeholder is written as in a template. */
  function Token(p: Placeholder): (r: string)
    ensures |r| >= 2 && r[0] == '[' && r[|r| - 1] == ']'
    ensures forall i :: 0 < i < |r| ==> r[i] != '['
  {
    match p
    case PageName => "[PageName]"
    case ModelName => "[ModelName]"
    case CamelModelName => "[modelName]"
  }

  /** Distinct placeholders have distinct tokens, and neither is a prefix of
      the other. */
  lemma TokensDiffer(p: Placeholder, q: Placeholder)
    requires p != q
    ensures Token(p)[1] != Token(q)[1]
  {
  }

  /** Literal template text: every `[` in it is followed by a quote, as in
      `queryKey: ['[modelName]List']`, so no placeholder token can start in
      it, not even one completed by the text that follows. */
  predicate Inert(s: string) {
    forall i | 0 <= i < |s| :: s[i] != '[' || (i + 1 < |s| && s[i + 1] == '\'')
  }

  type Fragment = s: string | Inert(s)

  datatype Piece = Lit(text: Fragment) | Hole(slot: Placeholder)

  function Show(p: Piece): string {
    match p
    case Lit(t) => t
    case Hole(q) => Token(q)
  }

  /** The template string. */
  function Render(ps: seq<Piece>): string
    decreases |ps|
  {
    if ps == [] then "" else Show(ps[0]) + Render(ps[1..])
  }

  /** Reference for one global replace: the template with every hole for
      `slot` written as `value` and everything else as it stands. */
  function Fill(ps: seq<Piece>, slot: Placeholder, value: string): string
    decreases |ps|
  {
    if ps == [] then ""
    else (if ps[0] == Hole(slot) then value else Show(ps[0])) + Fill(ps[1..], slot, value)
  }

  /** The pieces once the holes for `slot` are filled in with `value`: no hole
      for `slot` is left and every other piece stays where it was. */
  function Plug(ps: seq<Piece>, slot: Placeholder, value: Fragment): (r: seq<Piece>)
    ensures |r| == |ps|
    ensures forall k :: 0 <= k < |r| ==> r[k] != Hole(slot)
    ensures forall k :: 0 <= k < |r| && ps[k] != Hole(slot) ==> r[k] == ps[k]
  {
    seq(|ps|, k requires 0 <= k < |ps| => if ps[k] == Hole(slot) then Lit(value) else ps[k])
  }

  lemma {:induction false} RenderPlug(ps: seq<Piece>, slot: Placeholder, value: Fragment)
    ensures Render(Plug(ps, slot, value)) == Fill(ps, slot, value)
    decreases |ps|
  {
    if ps != [] {
      RenderPlug(ps[1..], slot, value);
      assert Plug(ps, slot, value)[1..] == Plug(ps[1..], slot, value);
    }
  }

  // Cleanliness of the pieces with respect to a token

  lemma CleanByHead(a: string, pat: string)
    requires |a| >= 2 && |pat| >= 2 && a[1] != pat[1]
    requires forall i :: 0 < i < |a| ==> a[i] != pat[0]
    ensures Clean(a, pat)
  {
    forall i | 0 <= i < |a| ensures !(pat <= a[i..]) && !(a[i..] <= pat) {
      assert a[i..][0] == a[i];
      if i == 0 {
        assert a[i..][1] == a[1];
      }
    }
  }

  /** A token holds no other placeholder's token, not even in part. */
  lemma TokenClean(p: Placeholder, q: Placeholder)
    requires p != q
    ensures Clean(Token(p), Token(q))
  {
    TokensDiffer(p, q);
    CleanByHead(Token(p), Token(q));
  }

  lemma FragmentClean(t: Fragment, q: Placeholder)
    ensures Clean(t, Token(q))
  {
    var pat := Token(q);
    assert pat[1] != '\'';
    forall i | 0 <= i < |t| ensures !(pat <= t[i..]) && !(t[i..] <= pat) {
      assert t[i..][0] == t[i];
      if t[i] == '[' {
        assert t[i..][1] == '\'';
      }
    }
  }

  /** Every piece but a hole for `q` is clean with respect to `q`'s token. */
  lemma ShowClean(p: Piece, q: Placeholder)
    requires p != Hole(q)
    ensures Clean(Show(p), Token(q))
  {
    match p
    case Lit(t) => FragmentClean(t, q);
    case Hole(r) => TokenClean(r, q);
  }

  // One global replace on a template

  lemma {:induction false} LiteralReplaceFill(ps: seq<Piece>, slot: Placeholder, value: string)
    ensures LiteralReplace(Render(ps), Token(slot), value) == Fill(ps, slot, value)
    decreases |ps|
  {
    if ps != [] {
      LiteralReplaceFill(ps[1..], slot, value);
      if ps[0] == Hole(slot) {
        LiteralReplaceMatch(Render(ps[1..]), Token(slot), value);
      } else {
        ShowClean(ps[0], slot);
        LiteralReplaceClean(Show(ps[0]), Render(ps[1..]), Token(slot), value);
      }
    }
  }

  /** `template.replace(/\[Slot\]/g, value)` writes `value` at every hole for
      the slot and changes nothing else, when `value` holds no `$`. */
  lemma ReplaceFillsHoles(ps: seq<Piece>, slot: Placeholder, value: string)
    requires '$' !in value
    ensures ReplaceAll(Render(ps), Token(slot), value) == Fill(ps, slot, value)
  {
    ReplaceAllLiteral(Render(ps), Token(slot), value);
    LiteralReplaceFill(ps, slot, value);
  }

  /** Holes for `q` only where `slot` is filled in, and a `value` clean for
      `q`: the result holds no `q` token at all. */
  lemma {:induction false} FillClean(ps: seq<Piece>, slot: Placeholder, value: string, q: Placeholder)
    requires forall k :: 0 <= k < |ps| && ps[k] == Hole(q) ==> q == slot
    requires Clean(value, Token(q))
    ensures Clean(Fill(ps, slot, value), Token(q))
    decreases |ps|
  {
    if ps == [] {
    } else {
      FillClean(ps[1..], slot, value, q);
      if ps[0] != Hole(slot) {
        ShowClean(ps[0], q);
      }
      var head := if ps[0] == Hole(slot) then value else Show(ps[0]);
      CleanConcat(head, Fill(ps[1..], slot, value), Token(q));
    }
  }

  /** The literal text of a piece survives in the filled-in template. */
  lemma {:induction false} FillKeepsText(ps: seq<Piece>, slot: Placeholder, value: string, k: nat, m: string)
    requires k < |ps| && ps[k].Lit? && Includes(ps[k].text, m)
    ensures Includes(Fill(ps, slot, value), m)
    decreases k
  {
    var head := if ps[0] == Hole(slot) then value else Show(ps[0]);
    if k == 0 {
      IncludesLeft(head, Fill(ps[1..], slot, value), m);
    } else {
      FillKeepsText(ps[1..], slot, value, k - 1, m);
      IncludesRight(head, Fill(ps[1..], slot, value), m);
    }
  }

  /** The value filled into a hole for `slot` is in the filled-in template. */
  lemma {:induction false} FillHole(ps: seq<Piece>, slot: Placeholder, value: string, k: nat)
    requires k < |ps| && ps[k] == Hole(slot)
    ensures Includes(Fill(ps, slot, value), value)
    decreases k
  {
    var head := if ps[0] == Hole(slot) then value else Show(ps[0]);
    if k == 0 {
      assert value <= head + Fill(ps[1..], slot, value);
    } else {
      FillHole(ps[1..], slot, value, k - 1);
      IncludesRight(head, Fill(ps[1..], slot, value), value);
    }
  }

  /** One step of the scan over a template: a hole for `slot` is a match and
      is expanded; any other piece is copied as it stands. */
  lemma ScanPiece(pre: string, p: Piece, post: string, slot: Placeholder, rep: string)
    ensures Scan(pre, Show(p) + post, Token(slot), rep)
      == (if p == Hole(slot) then Expand(rep, Token(slot), pre, post) else Show(p))
         + Scan(pre + Show(p), post, Token(slot), rep)
  {
    if p == Hole(slot) {
      ScanMatch(pre, Token(slot), post, rep);
    } else {
      ShowClean(p, slot);
      ScanClean(pre, Show(p), post, Token(slot), rep);
    }
  }

  /** The scan of a global replace, whatever the replacement, passes over
      every literal piece of a template unchanged: text that starts a literal
      piece is still in the result. */
  lemma {:induction false} ReplaceKeepsText(pre: string, ps: seq<Piece>, slot: Placeholder, rep: string, k: nat, m: string)
    requires k < |ps| && ps[k].Lit? && Includes(ps[k].text, m)
    ensures Includes(Scan(pre, Render(ps), Token(slot), rep), m)
    decreases k
  {
    var pat := Token(slot);
    var post := Render(ps[1..]);
    assert Render(ps) == Show(ps[0]) + post;
    ScanPiece(pre, ps[0], post, slot, rep);
    var head := if ps[0] == Hole(slot) then Expand(rep, pat, pre, post) else Show(ps[0]);
    var tail := Scan(pre + Show(ps[0]), post, pat, rep);
    if k == 0 {
      assert head == ps[0].text;
      IncludesLeft(head, tail, m);
    } else {
      ReplaceKeepsText(pre + Show(ps[0]), ps[1..], slot, rep, k - 1, m);
      IncludesRight(head, tail, m);
    }
  }

  lemma ReplaceAllKeepsText(ps: seq<Piece>, slot: Placeholder, rep: string, k: nat, m: string)
    requires k < |ps| && ps[k].Lit? && Includes(ps[k].text, m)
    ensures Includes(ReplaceAll(Render(ps), Token(slot), rep), m)
  {
    ReplaceKeepsText("", ps, slot, rep, k, m);
  }

  // The templates, as the source spells them

  // Page template: 78 pieces
  const BasicPagePart0: seq<Piece> := [
    Lit("import { F"),
    Lit("C } from '"),
    Lit("react'\n"),
    Lit("import { P"),
    Lit("ageContain"),
    Lit("er } from ")
  ]

  const BasicPagePart1: seq<Piece> := [
    Lit("'@ant-desi"),
    Lit("gn/pro-lay"),
    Lit("out'\n"),
    Lit("import { u"),
    Lit("seTranslat"),
    Lit("ion } from")
  ]

  const BasicPagePart2: seq<Piece> := [
    Lit(" 'react-i1"),
    Lit("8next'\n"),
    Lit("\n"),
    Lit("const "),
    Hole(PageName),
    Lit(": FC = () "),
    Lit("=> {\n"),
    Lit("  const { ")
  ]

  const BasicPagePart3: seq<Piece> := [
    Lit("t } = useT"),
    Lit("ranslation"),
    Lit("()\n"),
    Lit("\n"),
    Lit("  return ("),
    Lit("\n"),
    Lit("    <PageC"),
    Lit("ontainer\n")
  ]

  const BasicPagePart4: seq<Piece> := [
    Lit("      head"),
    Lit("er={{\n"),
    Lit("        "),
    Lit("title: null"),
    Lit(",\n"),
    Lit("        ")
  ]

  const BasicPagePart5: seq<Piece> := [
    Lit("children: <div className=\"h-0 w-0\" />"),
    Lit(",\n"),
    Lit("        ")
  ]

  const BasicPagePart6: seq<Piece> := [
    Lit("childrenContentStyle"),
    Lit(": {\n"),
    Lit("          "),
    Lit("padding: 0"),
    Lit(",\n"),
    Lit("          ")
  ]

  const BasicPagePart7: seq<Piece> := [
    Lit("height: 0,"),
    Lit("\n"),
    Lit("          "),
    Lit("overflow: "),
    Lit("'hidden',\n"),
    Lit("          ")
  ]

  const BasicPagePart8: seq<Piece> := [
    Lit("display: '"),
    Lit("none',\n"),
    Lit("          "),
    Lit("width: 0,\n"),
    Lit("        },"),
    Lit("\n")
  ]

  const BasicPagePart9: seq<Piece> := [
    Lit("        st"),
    Lit("yle: {\n"),
    Lit("          "),
    Lit("height: 0,"),
    Lit("\n"),
    Lit("          "),
    Lit("padding: 0")
  ]

  const BasicPagePart10: seq<Piece> := [
    Lit(",\n"),
    Lit("        },"),
    Lit("\n"),
    Lit("      }}\n"),
    Lit("    >\n"),
    Lit("      {/* "),
    Lit("页面内容 */}\n")
  ]

  const BasicPagePart11: seq<Piece> := [
    Lit("    </Page"),
    Lit("Container>"),
    Lit("\n"),
    Lit("  )\n"),
    Lit("}\n"),
    Lit("\n"),
    Lit("export def"),
    Lit("ault ")
  ]

  const BasicPagePart12: seq<Piece> := [
    Hole(PageName)
  ]

  const BasicPagePieces: seq<Piece> := BasicPagePart0 + BasicPagePart1 + BasicPagePart2 + BasicPagePart3 + BasicPagePart4 + BasicPagePart5 + BasicPagePart6 + BasicPagePart7 + BasicPagePart8 + BasicPagePart9 + BasicPagePart10 + BasicPagePart11 + BasicPagePart12

  // Api template: 129 pieces
  const ApiTemplatePart0: seq<Piece> := [
    Lit("import { r"),
    Lit("equest } f"),
    Lit("rom '@/uti"),
    Lit("ls/request"),
    Lit("'\n"),
    Lit("\n"),
    Lit("// 定义请求参数类"),
    Lit("型\n")
  ]

  const ApiTemplatePart1: seq<Piece> := [
    Lit("export int"),
    Lit("erface "),
    Hole(ModelName),
    Lit("ListParams"),
    Lit(" {\n"),
    Lit("  name?: s"),
    Lit("tring\n"),
    Lit("  status?:")
  ]

  const ApiTemplatePart2: seq<Piece> := [
    Lit(" number\n"),
    Lit("  pageNumb"),
    Lit("er: number"),
    Lit("\n"),
    Lit("  pageSize"),
    Lit(": number\n"),
    Lit("}\n"),
    Lit("\n")
  ]

  const ApiTemplatePart3: seq<Piece> := [
    Lit("export int"),
    Lit("erface "),
    Hole(ModelName),
    Lit(" {\n"),
    Lit("  id: stri"),
    Lit("ng\n"),
    Lit("  name: st"),
    Lit("ring\n")
  ]

  const ApiTemplatePart4: seq<Piece> := [
    Lit("  status: "),
    Lit("number\n"),
    Lit("  createTi"),
    Lit("me: string"),
    Lit("\n"),
    Lit("}\n"),
    Lit("\n"),
    Lit("// 列表查询\n")
  ]

  const ApiTemplatePart5: seq<Piece> := [
    Lit("export con"),
    Lit("st "),
    Hole(CamelModelName),
    Lit("List = (pa"),
    Lit("rams: "),
    Hole(ModelName),
    Lit("ListParams"),
    Lit(") => {\n")
  ]

  const ApiTemplatePart6: seq<Piece> := [
    Lit("  return "),
    Lit("request('/"),
    Lit("api/"),
    Hole(CamelModelName),
    Lit("', 'POST',"),
    Lit(" params, {"),
    Lit("\n"),
    Lit("    header")
  ]

  const ApiTemplatePart7: seq<Piece> := [
    Lit("s: {\n"),
    Lit("      'Con"),
    Lit("tent-Type'"),
    Lit(": 'applica"),
    Lit("tion/json'"),
    Lit(",\n"),
    Lit("    },\n")
  ]

  const ApiTemplatePart8: seq<Piece> := [
    Lit("  })\n"),
    Lit("}\n"),
    Lit("\n"),
    Lit("// 添加\n"),
    Lit("export con"),
    Lit("st add"),
    Hole(ModelName),
    Lit(" = (data: ")
  ]

  const ApiTemplatePart9: seq<Piece> := [
    Lit("Partial<"),
    Hole(ModelName),
    Lit(">) => {\n"),
    Lit("  return "),
    Lit("request('/"),
    Lit("api/"),
    Hole(CamelModelName),
    Lit("', 'POST',")
  ]

  const ApiTemplatePart10: seq<Piece> := [
    Lit(" data)\n"),
    Lit("}\n"),
    Lit("\n"),
    Lit("// 更新\n"),
    Lit("export con"),
    Lit("st update"),
    Hole(ModelName),
    Lit(" = (id: st")
  ]

  const ApiTemplatePart11: seq<Piece> := [
    Lit("ring, data"),
    Lit(": Partial<"),
    Hole(ModelName),
    Lit(">) => {\n"),
    Lit("  return "),
    Lit("request(`/"),
    Lit("api/"),
    Hole(CamelModelName)
  ]

  const ApiTemplatePart12: seq<Piece> := [
    Lit("/${id}`, '"),
    Lit("PUT', data"),
    Lit(")\n"),
    Lit("}\n"),
    Lit("\n"),
    Lit("// 删除\n"),
    Lit("export con"),
    Lit("st del")
  ]

  const ApiTemplatePart13: seq<Piece> := [
    Hole(ModelName),
    Lit(" = (id: st"),
    Lit("ring) => {"),
    Lit("\n"),
    Lit("  return "),
    Lit("request(`/"),
    Lit("api/"),
    Hole(CamelModelName)
  ]

  const ApiTemplatePart14: seq<Piece> := [
    Lit("/${id}`, '"),
    Lit("DELETE')\n"),
    Lit("}\n"),
    Lit("\n"),
    Lit("// 详情\n"),
    Lit("export con"),
    Lit("st get"),
    Hole(ModelName)
  ]

  const ApiTemplatePart15: seq<Piece> := [
    Lit("ById = (id"),
    Lit(": string) "),
    Lit("=> {\n"),
    Lit("  return "),
    Lit("request(`/"),
    Lit("api/"),
    Hole(CamelModelName),
    Lit("/${id}`, '")
  ]

  const ApiTemplatePart16: seq<Piece> := [
    Lit("GET')\n"),
    Lit("}")
  ]

  const ApiTemplatePieces: seq<Piece> := ApiTemplatePart0 + ApiTemplatePart1 + ApiTemplatePart2 + ApiTemplatePart3 + ApiTemplatePart4 + ApiTemplatePart5 + ApiTemplatePart6 + ApiTemplatePart7 + ApiTemplatePart8 + ApiTemplatePart9 + ApiTemplatePart10 + ApiTemplatePart11 + ApiTemplatePart12 + ApiTemplatePart13 + ApiTemplatePart14 + ApiTemplatePart15 + ApiTemplatePart16

  // Hook template: 169 pieces
  const HookTemplatePart0: seq<Piece> := [
    Lit("import { "),
    Lit("useQuery, "),
    Lit("useMutatio"),
    Lit("n, "),
    Lit("useQueryCl"),
    Lit("ient } fro")
  ]

  const HookTemplatePart1: seq<Piece> := [
    Lit("m '@tansta"),
    Lit("ck/react-q"),
    Lit("uery'\n"),
    Lit("import { "),
    Hole(CamelModelName),
    Lit("List, add"),
    Hole(ModelName),
    Lit(", update")
  ]

  const HookTemplatePart2: seq<Piece> := [
    Hole(ModelName),
    Lit(", del"),
    Hole(ModelName),
    Lit(" } from '@"),
    Lit("/api/"),
    Hole(CamelModelName),
    Lit("'\n"),
    Lit("import typ")
  ]

  const HookTemplatePart3: seq<Piece> := [
    Lit("e { "),
    Hole(ModelName),
    Lit("ListParams"),
    Lit(", "),
    Hole(ModelName),
    Lit(" } from '@"),
    Lit("/api/"),
    Hole(CamelModelName)
  ]

  const HookTemplatePart4: seq<Piece> := [
    Lit("'\n"),
    Lit("\n"),
    Lit("// 数据查询Hoo"),
    Lit("k\n"),
    Lit("export con"),
    Lit("st use"),
    Hole(ModelName),
    Lit("List = (pa")
  ]

  const HookTemplatePart5: seq<Piece> := [
    Lit("rams?: "),
    Hole(ModelName),
    Lit("ListParams"),
    Lit(") => {\n"),
    Lit("  return "),
    Lit("useQuery({"),
    Lit("\n"),
    Lit("    queryK")
  ]

  const HookTemplatePart6: seq<Piece> := [
    Lit("ey: ['"),
    Hole(CamelModelName),
    Lit("List', par"),
    Lit("ams],\n"),
    Lit("    queryF"),
    Lit("n: () => "),
    Hole(CamelModelName),
    Lit("List(param")
  ]

  const HookTemplatePart7: seq<Piece> := [
    Lit("s || { pag"),
    Lit("eNumber: 1"),
    Lit(", pageSize"),
    Lit(": 10 }),\n"),
    Lit("  })\n"),
    Lit("}\n"),
    Lit("\n")
  ]

  const HookTemplatePart8: seq<Piece> := [
    Lit("// 添加Hook\n"),
    Lit("export con"),
    Lit("st useAdd"),
    Hole(ModelName),
    Lit(" = () => {"),
    Lit("\n"),
    Lit("  const qu")
  ]

  const HookTemplatePart9: seq<Piece> := [
    Lit("eryClient "),
    Lit("= "),
    Lit("useQueryCl"),
    Lit("ient()\n"),
    Lit("  \n"),
    Lit("  return u"),
    Lit("seMutation"),
    Lit("({\n")
  ]

  const HookTemplatePart10: seq<Piece> := [
    Lit("    mutati"),
    Lit("onFn: add"),
    Hole(ModelName),
    Lit(",\n"),
    Lit("    onSucc"),
    Lit("ess: () =>"),
    Lit(" {\n"),
    Lit("      quer")
  ]

  const HookTemplatePart11: seq<Piece> := [
    Lit("yClient.in"),
    Lit("validateQu"),
    Lit("eries({ qu"),
    Lit("eryKey: ['"),
    Hole(CamelModelName),
    Lit("List'] })\n"),
    Lit("    },\n")
  ]

  const HookTemplatePart12: seq<Piece> := [
    Lit("  })\n"),
    Lit("}\n"),
    Lit("\n"),
    Lit("// 更新Hook\n"),
    Lit("export con"),
    Lit("st useUpda"),
    Lit("te"),
    Hole(ModelName)
  ]

  const HookTemplatePart13: seq<Piece> := [
    Lit(" = () => {"),
    Lit("\n"),
    Lit("  const qu"),
    Lit("eryClient "),
    Lit("= "),
    Lit("useQueryCl"),
    Lit("ient()\n"),
    Lit("  \n")
  ]

  const HookTemplatePart14: seq<Piece> := [
    Lit("  return u"),
    Lit("seMutation"),
    Lit("({\n"),
    Lit("    mutati"),
    Lit("onFn: ({ i"),
    Lit("d, data }:")
  ]

  const HookTemplatePart15: seq<Piece> := [
    Lit(" { id: str"),
    Lit("ing; data:"),
    Lit(" Partial<"),
    Hole(ModelName),
    Lit("> }) => \n"),
    Lit("      upda"),
    Lit("te"),
    Hole(ModelName)
  ]

  const HookTemplatePart16: seq<Piece> := [
    Lit("(id, data)"),
    Lit(",\n"),
    Lit("    onSucc"),
    Lit("ess: () =>"),
    Lit(" {\n"),
    Lit("      quer"),
    Lit("yClient.in")
  ]

  const HookTemplatePart17: seq<Piece> := [
    Lit("validateQu"),
    Lit("eries({ qu"),
    Lit("eryKey: ['"),
    Hole(CamelModelName),
    Lit("List'] })\n"),
    Lit("    },\n"),
    Lit("  })\n"),
    Lit("}\n")
  ]

  const HookTemplatePart18: seq<Piece> := [
    Lit("\n"),
    Lit("// 删除Hook\n"),
    Lit("export con"),
    Lit("st useDel"),
    Hole(ModelName),
    Lit(" = () => {"),
    Lit("\n"),
    Lit("  const qu")
  ]

  const HookTemplatePart19: seq<Piece> := [
    Lit("eryClient "),
    Lit("= "),
    Lit("useQueryCl"),
    Lit("ient()\n"),
    Lit("  \n"),
    Lit("  return u"),
    Lit("seMutation"),
    Lit("({\n")
  ]

  const HookTemplatePart20: seq<Piece> := [
    Lit("    mutati"),
    Lit("onFn: del"),
    Hole(ModelName),
    Lit(",\n"),
    Lit("    onSucc"),
    Lit("ess: () =>"),
    Lit(" {\n"),
    Lit("      quer")
  ]

  const HookTemplatePart21: seq<Piece> := [
    Lit("yClient.in"),
    Lit("validateQu"),
    Lit("eries({ qu"),
    Lit("eryKey: ['"),
    Hole(CamelModelName),
    Lit("List'] })\n"),
    Lit("    },\n")
  ]

  const HookTemplatePart22: seq<Piece> := [
    Lit("  })\n"),
    Lit("}")
  ]

  const HookTemplatePieces: seq<Piece> := HookTemplatePart0 + HookTemplatePart1 + HookTemplatePart2 + HookTemplatePart3 + HookTemplatePart4 + HookTemplatePart5 + HookTemplatePart6 + HookTemplatePart7 + HookTemplatePart8 + HookTemplatePart9 + HookTemplatePart10 + HookTemplatePart11 + HookTemplatePart12 + HookTemplatePart13 + HookTemplatePart14 + HookTemplatePart15 + HookTemplatePart16 + HookTemplatePart17 + HookTemplatePart18 + HookTemplatePart19 + HookTemplatePart20 + HookTemplatePart21 + HookTemplatePart22

  /** `PAGE_TEMPLATES.basicPage`, `.apiTemplate` and `.hookTemplate`. */
  const BasicPage: string := Render(BasicPagePieces)
  const ApiTemplate: string := Render(ApiTemplatePieces)
  const HookTemplate: string := Render(HookTemplatePieces)

  // Where the markers that validation looks for stand in the templates

  lemma PageTitlePiece()
    ensures BasicPagePieces[31].Lit? && BasicPagePieces[31].text == "title: null"
  {
  }

  lemma PageChildrenPiece()
    ensures BasicPagePieces[34].Lit? && BasicPagePieces[34].text == "children: <div className=\"h-0 w-0\" />"
  {
  }

  lemma PageContentStylePiece()
    ensures BasicPagePieces[37].Lit? && BasicPagePieces[37].text == "childrenContentStyle"
  {
  }

  lemma ApiListPiece()
    ensures ApiTemplatePieces[11].Lit? && ApiTemplatePieces[11].text == "ListParams"
    ensures MarkerAt(ApiTemplatePieces, 11, "List")
  {
  }

  lemma ApiRequestPiece()
    ensures ApiTemplatePieces[49].Lit? && ApiTemplatePieces[49].text == "request('/"
    ensures MarkerAt(ApiTemplatePieces, 49, "request(")
  {
  }

  lemma HookQueryPiece()
    ensures HookTemplatePieces[1].Lit? && HookTemplatePieces[1].text == "useQuery, "
    ensures MarkerAt(HookTemplatePieces, 1, "useQuery") && MarkerAt(HookTemplatePieces, 1, "use")
  {
  }

  lemma ApiModelHoles()
    ensures ApiTemplatePieces[10] == Hole(ModelName) && ApiTemplatePieces[42] == Hole(CamelModelName)
  {
  }

  lemma HookModelHoles()
    ensures HookTemplatePieces[12] == Hole(ModelName) && HookTemplatePieces[10] == Hole(CamelModelName)
  {
  }

  // generate_page_template

  const TemplateKinds: set<string> := {"page", "api", "hook"}

  function UnknownKindMessage(kind: string): string {
    "未知的模板类型: " + kind
  }

  /** The api and hook templates: `[ModelName]` is replaced first, and the
      `[modelName]` replace then runs over the result of the first. */
  function ReplaceModel(template: string, pascal: string, camel: string): string {
    ReplaceAll(ReplaceAll(template, Token(ModelName), pascal), Token(CamelModelName), camel)
  }

  /** The template text for `kind`, with the name in both casings; any other
      kind throws before anything is produced. */
  function GenerateTemplate(kind: string, name: string): (r: Result<string>)
    ensures r.Ok? <==> kind in TemplateKinds
    ensures !r.Ok? ==> r == Thrown(Raised(UnknownKindMessage(kind)))
  {
    var pascal := UpperFirst(name);
    var camel := LowerFirst(name);
    if kind == "page" then Ok(ReplaceAll(BasicPage, Token(PageName), pascal))
    else if kind == "api" then Ok(ReplaceModel(ApiTemplate, pascal, camel))
    else if kind == "hook" then Ok(ReplaceModel(HookTemplate, pascal, camel))
    else Thrown(Raised(UnknownKindMessage(kind)))
  }

  /** With no `$` in the name, the page is the template with the PascalCase
      name at every `[PageName]`. */
  lemma PageTemplateFilled(name: string)
    requires '$' !in name
    ensures GenerateTemplate("page", name) == Ok(Fill(BasicPagePieces, PageName, UpperFirst(name)))
  {
    CaseFlipsKeep(name, '$');
    ReplaceFillsHoles(BasicPagePieces, PageName, UpperFirst(name));
  }

  /** With no `$` and no `[` in the name, the two replaces of the api and
      hook templates fill the `[ModelName]` holes with the PascalCase name
      and then the `[modelName]` holes with the camelCase name. */
  lemma ModelTemplateFilled(ps: seq<Piece>, name: string)
    requires '$' !in name && '[' !in name
    ensures ReplaceModel(Render(ps), UpperFirst(name), LowerFirst(name))
         == Fill(Plug(ps, ModelName, UpperFirst(name)), CamelModelName, LowerFirst(name))
  {
    CaseFlipsKeep(name, '$');
    CaseFlipsKeep(name, '[');
    var pascal: Fragment := UpperFirst(name);
    ReplaceFillsHoles(ps, ModelName, pascal);
    RenderPlug(ps, ModelName, pascal);
    ReplaceFillsHoles(Plug(ps, ModelName, pascal), CamelModelName, LowerFirst(name));
  }

  /** The api and hook replaces keep every part of every text piece of the
      template that holds no bracket and starts with a letter missing from
      `[modelName]`, whatever the name: the first replace keeps the piece,
      and no match of the second can overlap such a part. */
  predicate MarkerAt(ps: seq<Piece>, k: nat, m: string) {
    k < |ps| && ps[k].Lit? && Includes(ps[k].text, m)
    && m != [] && '[' !in m && ']' !in m && m[0] !in Token(CamelModelName)
  }

  lemma ModelMarker(ps: seq<Piece>, name: string, k: nat, m: string)
    requires MarkerAt(ps, k, m)
    ensures Includes(ReplaceModel(Render(ps), UpperFirst(name), LowerFirst(name)), m)
  {
    ReplaceAllKeepsText(ps, ModelName, UpperFirst(name), k, m);
    ScanKeeps("", ReplaceAll(Render(ps), Token(ModelName), UpperFirst(name)), Token(CamelModelName), LowerFirst(name), m);
  }

  /** A template with a hole of each kind gets both casings of the name from
      the two replaces, for names without `$` or `[`. */
  lemma ModelNamesAppear(ps: seq<Piece>, name: string, i: nat, j: nat)
    requires '$' !in name && '[' !in name
    requires i < |ps| && ps[i] == Hole(ModelName)
    requires j < |ps| && ps[j] == Hole(CamelModelName)
    ensures Includes(ReplaceModel(Render(ps), UpperFirst(name), LowerFirst(name)), UpperFirst(name))
    ensures Includes(ReplaceModel(Render(ps), UpperFirst(name), LowerFirst(name)), LowerFirst(name))
  {
    CaseFlipsKeep(name, '[');
    var pascal: Fragment := UpperFirst(name);
    var camel := LowerFirst(name);
    ModelTemplateFilled(ps, name);
    var plugged := Plug(ps, ModelName, pascal);
    assert plugged[i] == Lit(pascal);
    assert pascal <= plugged[i].text;
    FillKeepsText(plugged, CamelModelName, camel, i, pascal);
    FillHole(plugged, CamelModelName, camel, j);
  }

  /** The generated api code holds the name both capitalised and in camel
      case, for names without `$` or `[`. */
  lemma ApiNamesAppear(name: string)
    requires '$' !in name && '[' !in name
    ensures Includes(GenerateTemplate("api", name).value, UpperFirst(name))
    ensures Includes(GenerateTemplate("api", name).value, LowerFirst(name))
  {
    ApiModelHoles();
    ModelNamesAppear(ApiTemplatePieces, name, 10, 42);
  }

  /** The same for the generated hook code. */
  lemma HookNamesAppear(name: string)
    requires '$' !in name && '[' !in name
    ensures Includes(GenerateTemplate("hook", name).value, UpperFirst(name))
    ensures Includes(GenerateTemplate("hook", name).value, LowerFirst(name))
  {
    HookModelHoles();
    ModelNamesAppear(HookTemplatePieces, name, 12, 10);
  }

  /** Every placeholder of the chosen template is replaced: when the name
      holds no `$` and no `[`, the page keeps no `[PageName]`. */
  lemma PagePlaceholderReplaced(name: string)
    requires '$' !in name && '[' !in name
    ensures !Includes(GenerateTemplate("page", name).value, Token(PageName))
  {
    CaseFlipsKeep(name, '[');
    var pascal := UpperFirst(name);
    PageTemplateFilled(name);
    CleanWithoutFirst(pascal, Token(PageName));
    FillClean(BasicPagePieces, PageName, pascal, PageName);
    CleanExcludes(Fill(BasicPagePieces, PageName, pascal), Token(PageName));
  }

  /** The same for the two replaces of the api and hook templates: neither
      `[ModelName]` nor `[modelName]` is left. */
  lemma ModelPlaceholdersReplaced(ps: seq<Piece>, name: string)
    requires '$' !in name && '[' !in name
    ensures !Includes(ReplaceModel(Render(ps), UpperFirst(name), LowerFirst(name)), Token(ModelName))
    ensures !Includes(ReplaceModel(Render(ps), UpperFirst(name), LowerFirst(name)), Token(CamelModelName))
  {
    CaseFlipsKeep(name, '[');
    var pascal: Fragment := UpperFirst(name);
    var camel := LowerFirst(name);
    ModelTemplateFilled(ps, name);
    var plugged := Plug(ps, ModelName, pascal);
    CleanWithoutFirst(camel, Token(ModelName));
    CleanWithoutFirst(camel, Token(CamelModelName));
    FillClean(plugged, CamelModelName, camel, ModelName);
    FillClean(plugged, CamelModelName, camel, CamelModelName);
    CleanExcludes(Fill(plugged, CamelModelName, camel), Token(ModelName));
    CleanExcludes(Fill(plugged, CamelModelName, camel), Token(CamelModelName));
  }

  lemma NoPlaceholderSurvives(kind: string, name: string)
    requires '$' !in name && '[' !in name
    requires kind in TemplateKinds
    ensures kind == "page" ==> !Includes(GenerateTemplate(kind, name).value, Token(PageName))
    ensures kind != "page" ==> !Includes(GenerateTemplate(kind, name).value, Token(ModelName))
    ensures kind != "page" ==> !Includes(GenerateTemplate(kind, name).value, Token(CamelModelName))
  {
    if kind == "page" {
      PagePlaceholderReplaced(name);
    } else if kind == "api" {
      ModelPlaceholdersReplaced(ApiTemplatePieces, name);
    } else {
      ModelPlaceholdersReplaced(HookTemplatePieces, name);
    }
  }

  /** A name of "$&" writes each match back: the page comes out as the bare
      template, `[PageName]` and all. */
  lemma MatchPatternNameKeepsPlaceholder()
    ensures GenerateTemplate("page", "$&") == Ok(BasicPage)
  {
    assert UpperFirst("$&") == "$&";
    ReplaceAllMatchedIsIdentity(BasicPage, Token(PageName));
  }
}
