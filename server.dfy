/** The `CallToolRequestSchema` handler: it dispatches on the tool name,
    reads the tool's arguments, and answers with one text item or throws. */
module Server {
  import opened Text
  import opened Results
  import opened Templates
  import opened Validation
  import opened Naming
  import opened Guidelines

  datatype Option<T> = None | Some(value: T)

  /** `request.params`: the tool name and, when the request carries them, its
      string arguments by key. */
  datatype Request = Request(name: string, arguments: Option<map<string, string>>)

  /** The text of the one content item of a reply; for the guidelines, the
      heading and the keys of the table that follows it as JSON. */
  datatype Content = Plain(text: string) | GuidelineDoc(heading: string, keys: seq<string>)

  const ToolNames: set<string> :=
    {"get_page_guidelines", "generate_page_template", "validate_page_structure", "get_naming_suggestions"}

  function UnknownToolMessage(name: string): string {
    "未知的工具: " + name
  }

  /** `${args[key]}`: an absent argument prints as "undefined", and, being
      no string, matches no `case` of a `switch`. */
  function Interpolated(args: map<string, string>, key: string): string {
    if key in args then args[key] else "undefined"
  }

  /** What the handler answers for a request. */
  function Handle(req: Request): (r: Result<Content>)
    ensures req.name !in ToolNames ==> r == Thrown(Raised(UnknownToolMessage(req.name)))
    ensures req.name in ToolNames && req.arguments.None? ==> r == Thrown(MissingArgument("arguments"))
    ensures r.Thrown? && r.failure.Raised? ==>
      r.failure.message == UnknownToolMessage(req.name)
      || (req.name == "generate_page_template" && r.failure.message == UnknownKindMessage(Interpolated(req.arguments.value, "type")))
  {
    if req.name !in ToolNames then Thrown(Raised(UnknownToolMessage(req.name)))
    else if req.arguments.None? then Thrown(MissingArgument("arguments"))
    else
      var args := req.arguments.value;
      if req.name == "get_page_guidelines" then
        var category := if "type" in args then args["type"] else "all";
        Ok(GuidelineDoc(Heading, Keys(Select(category))))
      else if req.name == "generate_page_template" then
        if "name" !in args then Thrown(MissingArgument("name"))
        else
          match GenerateTemplate(Interpolated(args, "type"), args["name"])
          case Ok(template) => Ok(Plain(template))
          case Thrown(failure) => Thrown(failure)
      else if req.name == "validate_page_structure" then
        var kind := Interpolated(args, "type");
        if "code" in args then Ok(Plain(Validate(args["code"], kind)))
        else if kind in CheckedKinds then Thrown(MissingArgument("code"))
        else Ok(Plain(Success))
      else
        if "description" !in args then Thrown(MissingArgument("description"))
        else Ok(Plain(NamingReply(args["description"], Interpolated(args, "type"))))
  }

  /** The handler as the source runs it: a `switch` on the tool name whose
      validation case pushes its issues one check at a time. */
  method CallTool(req: Request) returns (r: Result<Content>)
    ensures r == Handle(req)
  {
    if req.name !in ToolNames {
      return Thrown(Raised(UnknownToolMessage(req.name)));
    }
    if req.arguments.None? {
      return Thrown(MissingArgument("arguments"));
    }
    var args := req.arguments.value;
    if req.name == "get_page_guidelines" {
      var category := if "type" in args then args["type"] else "all";
      var guidelines := Select(category);
      r := Ok(GuidelineDoc(Heading, Keys(guidelines)));
    } else if req.name == "generate_page_template" {
      if "name" !in args {
        return Thrown(MissingArgument("name"));
      }
      var template := GenerateTemplate(Interpolated(args, "type"), args["name"]);
      if template.Thrown? {
        return Thrown(template.failure);
      }
      r := Ok(Plain(template.value));
    } else if req.name == "validate_page_structure" {
      var kind := Interpolated(args, "type");
      if "code" !in args && kind in CheckedKinds {
        return Thrown(MissingArgument("code"));
      }
      var code := if "code" in args then args["code"] else "";
      var issues := CheckStructure(code, kind);
      var result := if |issues| == 0 then Success else IssuesHeader + Join(issues, "\n");
      assert "code" !in args ==> issues == [];
      r := Ok(Plain(result));
    } else {
      if "description" !in args {
        return Thrown(MissingArgument("description"));
      }
      r := Ok(Plain(NamingReply(args["description"], Interpolated(args, "type"))));
    }
  }

  // Properties of the dispatch

  function GenerateRequest(kind: string, name: string): Request {
    Request("generate_page_template", Some(map["type" := kind, "name" := name]))
  }

  function ValidateRequest(kind: string, code: string): Request {
    Request("validate_page_structure", Some(map["type" := kind, "code" := code]))
  }

  /** A template generated by the server passes the server's validation of
      the same type, whatever the name. */
  lemma GeneratedCodeValidates(kind: string, name: string)
    requires kind in TemplateKinds
    ensures Handle(GenerateRequest(kind, name)).Ok?
    ensures Handle(ValidateRequest(kind, Handle(GenerateRequest(kind, name)).value.text)) == Ok(Plain(Success))
  {
    var args := map["type" := kind, "name" := name];
    assert Interpolated(args, "type") == kind;
    var code := GenerateTemplate(kind, name).value;
    assert Handle(GenerateRequest(kind, name)) == Ok(Plain(code));
    if kind == "page" {
      GeneratedPagePasses(name);
    } else if kind == "api" {
      GeneratedApiPasses(name);
    } else {
      GeneratedHookPasses(name);
    }
    var vargs := map["type" := kind, "code" := code];
    assert Interpolated(vargs, "type") == kind;
  }

  /** Without a name, template generation fails on reading it, before the
      type is looked at. */
  lemma GenerateNeedsName(args: map<string, string>)
    requires "name" !in args
    ensures Handle(Request("generate_page_template", Some(args))) == Thrown(MissingArgument("name"))
  {
  }

  /** An unknown template type is an error carrying the type, with no
      output; an absent type prints as "undefined". */
  lemma UnknownTemplateType(args: map<string, string>)
    requires "name" in args
    requires "type" in args ==> args["type"] !in TemplateKinds
    ensures Handle(Request("generate_page_template", Some(args)))
      == Thrown(Raised(UnknownKindMessage(if "type" in args then args["type"] else "undefined")))
  {
  }

  /** Validation without a checked type succeeds, with or without code. */
  lemma ValidateUncheckedType(args: map<string, string>)
    requires Interpolated(args, "type") !in CheckedKinds
    ensures Handle(Request("validate_page_structure", Some(args))) == Ok(Plain(Success))
  {
    if "code" in args {
      UncheckedKindsPass(Interpolated(args, "type"), args["code"]);
    }
  }

  /** The guidelines default to the whole table. */
  lemma GuidelinesDefaultToAll()
    ensures Handle(Request("get_page_guidelines", Some(map[]))) == Ok(GuidelineDoc(Heading, Keys(AllSections)))
  {
    assert forall s :: Category(s) != "all";
  }
}
