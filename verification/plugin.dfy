/** The plugin entry point as a pure function: from the host configuration
    and the response of the catalog request to the tools it registers. */
module Plugin {
  import opened Wrappers
  import opened Text
  import opened JsValue
  import opened Catalog
  import opened Tally
  import opened Invoke

  const DefaultBaseUrl: string := "https://mcp.tikhub.io"
  const DefaultMaxTools: int := 100

  /** The configuration as the host supplies it; `None` is a missing field. */
  datatype RawConfig = RawConfig(
    apiToken: Option<string>,
    baseUrl: Option<string>,
    enabledCategories: Option<seq<string>>,
    maxTools: Option<int>)

  /** The configuration after defaults: an empty token stands for a missing
      one, since the start-up check treats both alike. */
  datatype Config = Config(
    apiToken: string,
    baseUrl: string,
    enabledCategories: seq<string>,
    maxTools: int)

  /** Applies the documented defaults to the fields the host left out. */
  function WithDefaults(raw: RawConfig): (c: Config)
    ensures raw.maxTools.None? ==> c.maxTools == DefaultMaxTools
    ensures raw.maxTools.Some? ==> c.maxTools == raw.maxTools.value
    ensures raw.enabledCategories.None? ==> c.enabledCategories == []
    ensures raw.enabledCategories.Some? ==> c.enabledCategories == raw.enabledCategories.value
    ensures raw.baseUrl.None? ==> c.baseUrl == DefaultBaseUrl
    ensures c.apiToken == "" <==> raw.apiToken.None? || raw.apiToken.value == ""
  {
    Config(
      raw.apiToken.GetOr(""),
      raw.baseUrl.GetOr(DefaultBaseUrl),
      raw.enabledCategories.GetOr([]),
      raw.maxTools.GetOr(DefaultMaxTools))
  }

  /** The error raised when the catalog body is not an array. */
  const MalformedCatalog: string := "TikHub /tools 返回格式异常"

  /** The catalog shape check: an array body yields its elements, anything
      else fails. */
  function FetchToolList(body: Value): (r: Result<seq<Value>, string>)
    ensures r.Success? <==> body.Arr?
    ensures r.Success? ==> r.value == body.items
    ensures r.Failure? ==> r.error == MalformedCatalog
  {
    match body
    case Arr(items) => Success(items)
    case _ => Failure(MalformedCatalog)
  }

  /** The namespace put in front of every registered tool name. */
  const NamePrefix: string := "tikhub_"
  /** The tag put in front of every registered description. */
  const DescriptionPrefix: string := "[TikHub] "

  /** One host registration: its visible name and description, and the
      remote tool its handler calls. */
  datatype Registration = Registration(name: string, description: string, target: string)

  /** The registration of one remote tool. */
  function Register(t: Tool): (r: Registration)
    ensures StartsWith(r.name, NamePrefix) && r.name[|NamePrefix|..] == t.name
    ensures StartsWith(r.description, DescriptionPrefix) && r.description[|DescriptionPrefix|..] == t.description
    ensures r.target == t.name
  {
    Registration(NamePrefix + t.name, DescriptionPrefix + t.description, t.name)
  }

  /** Distinct remote names give distinct host names. */
  lemma RegisteredNamesInjective(t: Tool, u: Tool)
    requires t.name != u.name
    ensures Register(t).name != Register(u).name
  {
  }

  /** The host call the registration makes for each tool, in order. */
  function RegisterAll(tools: seq<Tool>): (r: seq<Registration>)
    ensures |r| == |tools|
    ensures forall i :: 0 <= i < |tools| ==> r[i] == Register(tools[i])
  {
    seq(|tools|, i requires 0 <= i < |tools| => Register(tools[i]))
  }

  /** Why the plugin registered nothing: no token (logged), a failed or
      malformed catalog request (logged), or a TypeError from reading the
      name of a catalog element that has no string `name`, which escapes
      the entry function and rejects it. */
  datatype Abort = MissingToken | FetchFailed(message: string) | UnreadableName

  /** The outcome of loading the plugin: either nothing registered, for a
      reason, or the registrations together with the per-category tally. */
  datatype Load = Aborted(reason: Abort) | Loaded(registrations: seq<Registration>, tally: Counts)
  {
    /** The tools registered with the host. */
    function Registered(): seq<Registration>
    {
      if Loaded? then registrations else []
    }
  }

  /** The `name` of a catalog element when it is a string. Reading the name
      of `null` throws, and so does calling `startsWith` on a name that is
      missing or not a string. */
  function NameOf(v: Value): (r: Option<string>)
    ensures r.Some? <==> v.Obj? && "name" in v.fields && v.fields["name"].Str?
    ensures r.Some? ==> v.fields["name"] == Str(r.value)
  {
    if v.Obj? && "name" in v.fields && v.fields["name"].Str? then Some(v.fields["name"].s) else None
  }

  /** A catalog element read as a descriptor, when its name is readable; the
      description is whatever its `description` field prints as. */
  function ToolOf(v: Value): (r: Option<Tool>)
    ensures r.Some? <==> NameOf(v).Some?
    ensures r.Some? ==> r.value.name == NameOf(v).value
    ensures r.Some? ==> r.value.description == Display(Get(v, "description").value)
  {
    match NameOf(v)
    case None => None
    case Some(n) => Some(Tool(n, Display(Get(v, "description").value)))
  }

  /** Every element read as a descriptor, or `None` when some name is
      unreadable. */
  function DecodeAll(vs: seq<Value>): (r: Option<seq<Tool>>)
    ensures r.Some? <==> forall i :: 0 <= i < |vs| ==> ToolOf(vs[i]).Some?
    ensures r.Some? ==> |r.value| == |vs| && forall i :: 0 <= i < |vs| ==> Some(r.value[i]) == ToolOf(vs[i])
  {
    if |vs| == 0 then Some([])
    else
      var head, rest := ToolOf(vs[0]), DecodeAll(vs[1..]);
      if head.Some? && rest.Some? then Some([head.value] + rest.value)
      else
        assert head.None? || exists i :: 0 <= i < |vs[1..]| && ToolOf(vs[1..][i]).None?;
        None
  }

  /** The elements whose names the start-up reads: the allow-list test
      reads every element's name; without an allow-list only the capped
      list's names are read, by the tally loop. */
  function ElementsRead(items: seq<Value>, cfg: Config): seq<Value>
  {
    if |cfg.enabledCategories| > 0 then items else Cap(items, cfg.maxTools)
  }

  /** The plugin's start-up. `response` is what the catalog request returned
      (`Failure` carries the request's error message; the request is not made
      when the token is missing). It aborts exactly when the token is
      missing, the request fails, the body is not an array, or an element
      whose name is read has no string name. */
  function LoadPlugin(raw: RawConfig, response: Result<Value, string>): (r: Load)
    ensures r.Aborted? <==>
              || WithDefaults(raw).apiToken == ""
              || response.Failure?
              || !response.value.Arr?
              || DecodeAll(ElementsRead(response.value.items, WithDefaults(raw))).None?
    ensures WithDefaults(raw).apiToken == "" ==> r == Aborted(MissingToken)
  {
    var cfg := WithDefaults(raw);
    if cfg.apiToken == "" then Aborted(MissingToken)
    else
      match response
      case Failure(m) => Aborted(FetchFailed(m))
      case Success(body) =>
        match FetchToolList(body)
        case Failure(m) => Aborted(FetchFailed(m))
        case Success(items) =>
          match DecodeAll(ElementsRead(items, cfg))
          case None => Aborted(UnreadableName)
          case Some(read) =>
            var tools := FilterTools(read, cfg.enabledCategories, cfg.maxTools);
            Loaded(RegisterAll(tools), CountCategories(tools))
  }

  /** A missing or empty token registers nothing. */
  lemma NoTokenNoTools(raw: RawConfig, response: Result<Value, string>)
    requires raw.apiToken.None? || raw.apiToken == Some("")
    ensures LoadPlugin(raw, response).Registered() == []
  {
  }

  /** A failed or malformed catalog request registers nothing. */
  lemma BadCatalogNoTools(raw: RawConfig, response: Result<Value, string>)
    requires response.Failure? || !response.value.Arr?
    ensures LoadPlugin(raw, response).Registered() == []
    ensures WithDefaults(raw).apiToken != "" && response.Failure? ==>
              LoadPlugin(raw, response) == Aborted(FetchFailed(response.error))
    ensures WithDefaults(raw).apiToken != "" && response.Success? ==>
              LoadPlugin(raw, response) == Aborted(FetchFailed(MalformedCatalog))
  {
  }

  /** With an allow-list, one element without a string name anywhere in the
      catalog rejects the start-up and registers nothing. */
  lemma UnreadableNameRejects(raw: RawConfig, items: seq<Value>, i: int)
    requires WithDefaults(raw).apiToken != "" && |WithDefaults(raw).enabledCategories| > 0
    requires 0 <= i < |items| && NameOf(items[i]).None?
    ensures LoadPlugin(raw, Success(Arr(items))) == Aborted(UnreadableName)
  {
  }

  /** Without an allow-list, only the elements within the cap have their
      names read: an unreadable element past the cap is never touched. */
  lemma UnreadablePastCapIgnored(token: string, good: Value)
    requires token != "" && NameOf(good).Some?
    ensures LoadPlugin(RawConfig(Some(token), None, None, Some(1)), Success(Arr([good, Null])))
         == Loaded([Register(ToolOf(good).value)], CountCategories([ToolOf(good).value]))
    ensures LoadPlugin(RawConfig(Some(token), None, None, Some(2)), Success(Arr([good, Null])))
         == Aborted(UnreadableName)
  {
    var items := [good, Null];
    assert Cap(items, 1) == [good];
    assert [good][0] == good;
    assert DecodeAll([good]).Some? && DecodeAll([good]).value[0] == ToolOf(good).value;
    var d := DecodeAll([good]).value;
    assert |d| == 1;
    assert d == [ToolOf(good).value];
    assert RegisterAll([ToolOf(good).value]) == [Register(ToolOf(good).value)];
    assert Cap(items, 2) == items;
    assert ToolOf(items[1]).None?;
  }

  /** Reading a capped list is capping the read list. */
  lemma DecodeCap(items: seq<Value>, maxTools: int)
    requires DecodeAll(items).Some?
    ensures DecodeAll(Cap(items, maxTools)) == Some(Cap(DecodeAll(items).value, maxTools))
  {
    var c := Cap(items, maxTools);
    assert forall i :: 0 <= i < |c| ==> c[i] == items[i];
    var d := DecodeAll(c);
    assert d.Some?;
    assert d.value == Cap(DecodeAll(items).value, maxTools);
  }

  /** With a token and an array catalog whose names are all strings, each
      filtered tool is registered exactly once, in order, as "tikhub_" + its
      name with the handler bound to its own remote name; the tally's counts
      add up to the number of registrations. */
  lemma RegistrationsFollowFilter(raw: RawConfig, items: seq<Value>)
    requires WithDefaults(raw).apiToken != ""
    requires DecodeAll(items).Some?
    ensures var cfg := WithDefaults(raw);
            var tools := FilterTools(DecodeAll(items).value, cfg.enabledCategories, cfg.maxTools);
            var r := LoadPlugin(raw, Success(Arr(items)));
            && r.Loaded?
            && |r.registrations| == |tools|
            && (forall i :: 0 <= i < |tools| ==>
                  r.registrations[i].name == NamePrefix + tools[i].name
                  && r.registrations[i].description == DescriptionPrefix + tools[i].description
                  && r.registrations[i].target == tools[i].name)
            && Sum(r.tally) == |r.registrations|
  {
    var cfg := WithDefaults(raw);
    var all := DecodeAll(items).value;
    if |cfg.enabledCategories| == 0 {
      DecodeCap(items, cfg.maxTools);
      assert FilterTools(Cap(all, cfg.maxTools), [], cfg.maxTools) == FilterTools(all, [], cfg.maxTools);
    }
    var tools := FilterTools(all, cfg.enabledCategories, cfg.maxTools);
    CountCategoriesCorrect(tools);
  }

  /** The handler of a registration: posts the caller's arguments under
      the tool's remote name (not its host name), and turns whatever the
      call did into the payload it returns; it never raises. */
  function RunHandler(reg: Registration, args: Value, call: Value -> Result<Value, string>): (r: Value)
    ensures var sent := CallBody(reg.target, args);
            && (call(sent).Failure? ==> ReadPayload(r) == Some(Failed(call(sent).error)))
            && (call(sent).Success? && HasEnvelope(call(sent).value) ==> ReadPayload(r).Some? && ReadPayload(r).value.Envelope?)
  {
    Handle(call(CallBody(reg.target, args)))
  }
}
