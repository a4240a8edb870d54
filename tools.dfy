/** The browser tools the agent can call (extension/lib/agent/tools.ts): the
    tool table sent to the model, and `executeTool`, which parses the
    arguments, dispatches on the tool name and turns every failure into an
    error string. The browser and the page are oracles. */
module Tools {
  import opened Wrappers
  import opened Text
  import opened JsonValue
  import opened LlmTypes

  // ---- The tool table ------------------------------------------------------

  function StringParam(description: string): ToolParameter {
    ToolParameter("string", Some(description), None)
  }

  const BrowserTools: seq<ToolDefinition> := [
    ToolDefinition("navigate", "Navigate the current tab to a URL",
      [("url", StringParam("The URL to navigate to"))], Some(["url"])),
    ToolDefinition("click", "Click an element on the page by CSS selector",
      [("selector", StringParam("CSS selector of the element to click"))], Some(["selector"])),
    ToolDefinition("type", "Type text into an input element",
      [("selector", StringParam("CSS selector of the input element")),
       ("text", StringParam("The text to type")),
       ("pressEnter", ToolParameter("string", Some("Whether to press Enter after typing (true/false)"), Some(["true", "false"])))],
      Some(["selector", "text"])),
    ToolDefinition("scroll", "Scroll the page up or down",
      [("direction", ToolParameter("string", Some("Direction to scroll"), Some(["up", "down"])))], Some(["direction"])),
    ToolDefinition("getText", "Get the current page URL, title, and visible text content",
      [], None),
    ToolDefinition("getElements", "Query elements on the page and get their tag, text, and attributes",
      [("selector", StringParam("CSS selector to query elements")),
       ("limit", StringParam("Maximum number of elements to return (default 10)"))],
      Some(["selector"])),
    ToolDefinition("waitForNavigation", "Wait for the page to finish loading",
      [("timeout", StringParam("Maximum wait time in ms (default 5000)"))], None)
  ]

  /** The names `executeTool` dispatches on. */
  const ToolNames: seq<string> := ["navigate", "click", "type", "scroll", "getText", "getElements", "waitForNavigation"]

  // ---- URL normalisation -------------------------------------------------

  /** `/^https?:\/\//i`: the URL starts with `http://` or `https://`, in any case. */
  predicate HasScheme(url: string) {
    (|url| >= 7 && AsciiLower(url[..7]) == "http://") || (|url| >= 8 && AsciiLower(url[..8]) == "https://")
  }

  /** `toolNavigate`'s URL: `https://` is put in front of a URL without a scheme. */
  function NormalizeUrl(url: string): (r: string)
    ensures HasScheme(url) ==> r == url
    ensures !HasScheme(url) ==> r == "https://" + url
    ensures HasScheme(r)
  {
    if HasScheme(url) then url
    else
      assert ("https://" + url)[..8] == "https://";
      "https://" + url
  }

  /** Normalising twice is normalising once. */
  lemma NormalizeIdempotent(url: string)
    ensures NormalizeUrl(NormalizeUrl(url)) == NormalizeUrl(url)
  {
  }

  // ---- parseInt ----------------------------------------------------------

  predicate IsRadixDigit(c: char, hex: bool) {
    IsDigit(c) || (hex && (('a' <= c <= 'f') || ('A' <= c <= 'F')))
  }

  function DigitValue(c: char): nat
    requires IsRadixDigit(c, true)
  {
    if IsDigit(c) then (c as int - '0' as int) as nat
    else if 'a' <= c <= 'f' then (c as int - 'a' as int + 10) as nat
    else (c as int - 'A' as int + 10) as nat
  }

  /** The value of a run of digits in base 10 or 16. */
  function RadixValue(s: string, hex: bool): nat
    requires forall i :: 0 <= i < |s| ==> IsRadixDigit(s[i], hex)
  {
    if s == [] then 0
    else
      assert IsRadixDigit(s[|s| - 1], hex);
      RadixValue(s[..|s| - 1], hex) * (if hex then 16 else 10) + DigitValue(s[|s| - 1])
  }

  /** The length of the leading run of digits. */
  function DigitRun(s: string, hex: bool): (n: nat)
    ensures n <= |s|
    ensures forall i :: 0 <= i < n ==> IsRadixDigit(s[i], hex)
    ensures n == |s| || !IsRadixDigit(s[n], hex)
  {
    if s == [] || !IsRadixDigit(s[0], hex) then 0
    else
      var n := DigitRun(s[1..], hex);
      assert forall i :: 1 <= i < n + 1 ==> s[i] == s[1..][i - 1];
      n + 1
  }

  /** The unsigned part of `parseInt`: an optional `0x` prefix selecting
      base 16, then the longest run of digits; None when there is none. */
  function Unsigned(u: string): Option<nat> {
    var hex := |u| >= 2 && u[0] == '0' && (u[1] == 'x' || u[1] == 'X');
    var v := if hex then u[2..] else u;
    var n := DigitRun(v, hex);
    if n == 0 then None
    else
      var digits := v[..n];
      assert forall i :: 0 <= i < |digits| ==> IsRadixDigit(digits[i], hex);
      Some(RadixValue(digits, hex))
  }

  /** JavaScript `parseInt(s)` without a radix, None for `NaN`: leading white
      space, an optional sign, then the unsigned part; whatever follows the
      digits is ignored. */
  function ParseInt(s: string): Option<int> {
    var t := TrimLeft(Js, s);
    if t != [] && t[0] == '-' then
      match Unsigned(t[1..]) case None => None case Some(m) => Some(-(m as int))
    else if t != [] && t[0] == '+' then
      match Unsigned(t[1..]) case None => None case Some(m) => Some(m as int)
    else
      match Unsigned(t) case None => None case Some(m) => Some(m as int)
  }

  lemma {:induction false} DecimalValue(s: string)
    requires forall i :: 0 <= i < |s| ==> IsDigit(s[i])
    ensures RadixValue(s, false) == DigitsValue(s)
  {
    if s != [] {
      DecimalValue(s[..|s| - 1]);
    }
  }

  /** A non-empty string of decimal digits reads as its value. */
  lemma ParseDigits(s: string)
    requires s != [] && forall i :: 0 <= i < |s| ==> IsDigit(s[i])
    ensures ParseInt(s) == Some(DigitsValue(s))
  {
    assert !IsJsSpace(s[0]);
    assert TrimLeft(Js, s) == s;
    UnsignedDigits(s);
  }

  lemma UnsignedDigits(s: string)
    requires s != [] && forall i :: 0 <= i < |s| ==> IsDigit(s[i])
    ensures Unsigned(s) == Some(DigitsValue(s))
  {
    DigitRunAll(s);
    assert s[..|s|] == s;
    DecimalValue(s);
  }

  lemma {:induction false} DigitRunAll(s: string)
    requires forall i :: 0 <= i < |s| ==> IsDigit(s[i])
    ensures DigitRun(s, false) == |s|
  {
    if s != [] {
      DigitRunAll(s[1..]);
    }
  }

  /** `parseInt` reads back the decimal rendering of a number. */
  lemma ParseIntRoundTrip(n: nat)
    ensures ParseInt(NatToString(n)) == Some(n)
  {
    ParseDigits(NatToString(n));
    NatToStringRoundTrip(n);
  }

  /** `parseInt(arg || '<d>') || d`: the number in the argument, or the
      default when the argument is missing or empty, holds no number, or
      holds zero. */
  function IntOr(arg: Option<string>, d: nat): (r: int)
    requires d > 0
    ensures r != 0
    ensures arg.Some? && arg.value != [] && ParseInt(arg.value).Some? && ParseInt(arg.value).value != 0 ==>
              r == ParseInt(arg.value).value
    ensures (arg.None? || arg.value == [] || ParseInt(arg.value).None? || ParseInt(arg.value).value == 0) ==> r == d
  {
    var text := if arg.None? || arg.value == [] then NatToString(d) else arg.value;
    ParseIntRoundTrip(d);
    match ParseInt(text)
    case None => d
    case Some(n) => if n == 0 then d else n
  }

  // ---- getElements ---------------------------------------------------------

  /** An element as the page function sees it. */
  datatype Element = Element(tagName: string, innerText: Option<string>, attributes: seq<(string, string)>)

  const AllowedAttributes: seq<string> :=
    ["id", "class", "href", "src", "type", "name", "value", "placeholder", "aria-label", "role"]

  /** The value of the first entry named `k`. */
  function Lookup(fields: seq<(string, string)>, k: string): (r: Option<string>)
    ensures r.Some? ==> exists i :: 0 <= i < |fields| && fields[i] == (k, r.value)
    ensures r.None? <==> forall i :: 0 <= i < |fields| ==> fields[i].0 != k
  {
    if fields == [] then None
    else if fields[0].0 == k then Some(fields[0].1)
    else
      var r := Lookup(fields[1..], k);
      assert forall i :: 1 <= i < |fields| ==> fields[i] == fields[1..][i - 1];
      r
  }

  /** The value of the last attribute named `k`. */
  function LastValue(attrs: seq<(string, string)>, k: string): Option<string> {
    if attrs == [] then None
    else if attrs[|attrs| - 1].0 == k then Some(attrs[|attrs| - 1].1)
    else LastValue(attrs[..|attrs| - 1], k)
  }

  predicate UniqueKeys(fields: seq<(string, string)>) {
    forall i, j :: 0 <= i < j < |fields| ==> fields[i].0 != fields[j].0
  }

  /** `record[k] = v`: an existing key keeps its place and takes the new
      value; a new key goes at the end. */
  function Put(fields: seq<(string, string)>, k: string, v: string): (r: seq<(string, string)>)
    ensures Lookup(r, k) == Some(v)
    ensures forall k' :: k' != k ==> Lookup(r, k') == Lookup(fields, k')
  {
    if fields == [] then [(k, v)]
    else if fields[0].0 == k then [(k, v)] + fields[1..]
    else
      var rest := Put(fields[1..], k, v);
      assert forall i :: 1 <= i < |fields| ==> fields[i] == fields[1..][i - 1];
      [fields[0]] + rest
  }

  /** Putting a key keeps the keys unique. */
  lemma {:induction false} PutUnique(fields: seq<(string, string)>, k: string, v: string)
    requires UniqueKeys(fields)
    ensures UniqueKeys(Put(fields, k, v))
  {
    if fields != [] && fields[0].0 != k {
      var tail := fields[1..];
      assert forall i :: 0 <= i < |tail| ==> tail[i] == fields[i + 1];
      PutUnique(tail, k, v);
      var rest := Put(tail, k, v);
      assert Lookup(tail, fields[0].0).None?;
      assert Lookup(rest, fields[0].0).None?;
      assert Put(fields, k, v) == [fields[0]] + rest;
    }
  }

  /** The whitelisted attributes, as `attrs` holds them after the loop. */
  function KeptAttributes(attrs: seq<(string, string)>): seq<(string, string)> {
    if attrs == [] then []
    else
      var rest := KeptAttributes(attrs[..|attrs| - 1]);
      var (k, v) := attrs[|attrs| - 1];
      if k in AllowedAttributes then Put(rest, k, v) else rest
  }

  /** The kept attributes are exactly the whitelisted ones, each once, with the
      value of its last occurrence. */
  lemma {:induction false} KeptAttributesSpec(attrs: seq<(string, string)>)
    ensures UniqueKeys(KeptAttributes(attrs))
    ensures forall k :: Lookup(KeptAttributes(attrs), k) == if k in AllowedAttributes then LastValue(attrs, k) else None
  {
    if attrs != [] {
      var init := attrs[..|attrs| - 1];
      KeptAttributesSpec(init);
      var (k, v) := attrs[|attrs| - 1];
      if k in AllowedAttributes {
        PutUnique(KeptAttributes(init), k, v);
      }
    }
  }

  /** The `for (const attr of el.attributes)` loop. */
  method KeepAttributes(attrs: seq<(string, string)>) returns (kept: seq<(string, string)>)
    ensures kept == KeptAttributes(attrs)
  {
    kept := [];
    for i := 0 to |attrs|
      invariant kept == KeptAttributes(attrs[..i])
    {
      assert attrs[..i + 1][..i] == attrs[..i];
      var (k, v) := attrs[i];
      if k in AllowedAttributes {
        kept := Put(kept, k, v);
      }
    }
    assert attrs[..|attrs|] == attrs;
  }

  function AttrsJson(kept: seq<(string, string)>): Json {
    JObj(seq(|kept|, i requires 0 <= i < |kept| => (kept[i].0, JStr(kept[i].1))))
  }

  /** The text an element contributes: at most its first 100 characters. */
  function ElementText(el: Element): (r: string)
    ensures |r| <= 100
    ensures el.innerText.Some? ==> r <= el.innerText.value
  {
    match el.innerText
    case None => ""
    case Some(t) => SliceTo(t, 100)
  }

  function Summary(el: Element, i: nat): Json {
    JObj([("index", JNum(i as real)),
          ("tag", JStr(AsciiLower(el.tagName))),
          ("text", JStr(ElementText(el))),
          ("attrs", AttrsJson(KeptAttributes(el.attributes)))])
  }

  /** The summaries `toolGetElements` returns for the matched elements. */
  function Summaries(els: seq<Element>, limit: int): (r: seq<Json>)
    ensures limit >= 0 ==> |r| == if limit < |els| then limit else |els|
    ensures limit < 0 ==> |r| == if |els| + limit < 0 then 0 else |els| + limit
    ensures forall i :: 0 <= i < |r| ==> r[i] == Summary(els[i], i)
  {
    var kept := SliceTo(els, limit);
    seq(|kept|, i requires 0 <= i < |kept| => Summary(kept[i], i))
  }

  /** The page function of `toolGetElements`. */
  method GetElements(c: Codec, els: seq<Element>, limit: int) returns (out: string)
    ensures out == c.stringify(JArr(Summaries(els, limit)))
  {
    var kept := SliceTo(els, limit);
    var results: seq<Json> := [];
    for i := 0 to |kept|
      invariant |results| == i
      invariant forall j :: 0 <= j < i ==> results[j] == Summary(kept[j], j)
    {
      var attrs := KeepAttributes(kept[i].attributes);
      var el := JObj([("index", JNum(i as real)),
                      ("tag", JStr(AsciiLower(kept[i].tagName))),
                      ("text", JStr(ElementText(kept[i]))),
                      ("attrs", AttrsJson(attrs))]);
      results := results + [el];
    }
    assert results == Summaries(els, limit);
    out := c.stringify(JArr(results));
  }

  // ---- The browser -------------------------------------------------------

  datatype Tab = Tab(id: nat, url: string, title: string, complete: bool)

  /** The document the page functions run in. `scrolled` gives `scrollY`
      after `scrollBy` by the given amount, as a template literal renders that
      number (it can be fractional). */
  datatype Page = Page(
    href: string,
    title: string,
    bodyText: Option<string>,
    select: string -> seq<Element>,
    scrolled: int -> string)

  /** How `chrome.scripting.executeScript` ends. */
  datatype Injection = Returns | NoResult | Rejected(message: string)

  /** `active` is the first tab of the active-tab query; `navigated` the tab
      once navigation to the given URL has loaded (or timed out); `waited` the
      tab after waiting with the given timeout. */
  datatype Browser = Browser(
    active: Option<Tab>,
    injection: Injection,
    page: Page,
    navigated: string -> Tab,
    waited: int -> Tab)

  /** `JSON.parse`, the message of the error it throws on a given text, and the browser. */
  datatype ToolEnv = ToolEnv(codec: Codec, syntaxError: string -> string, browser: Browser)

  /** A tool's result, or the message of what it threw. */
  datatype Outcome = Ok(value: string) | Thrown(message: string)

  /** `getActiveTabId`: a missing tab or a tab without an id throws. */
  function ActiveTab(b: Browser): (r: Outcome)
    ensures r.Thrown? <==> b.active.None? || b.active.value.id == 0
  {
    if b.active.None? || b.active.value.id == 0 then Thrown("No active tab found") else Ok("")
  }

  /** `executeInTab`: the page function's value, unless the injection fails. */
  function InTab(b: Browser, value: string): Outcome {
    match b.injection
    case Returns => Ok(value)
    case NoResult => Thrown("Script execution returned no result")
    case Rejected(m) => Thrown(m)
  }

  /** A string argument, None when it is absent. */
  function Arg(args: Json, key: string): (r: Option<string>)
    ensures r.Some? <==> Prop(Some(args), key).Some? && Prop(Some(args), key).value.JStr?
    ensures r.Some? ==> Prop(Some(args), key) == Some(JStr(r.value))
  {
    match Prop(Some(args), key)
    case Some(JStr(s)) => Some(s)
    case _ => None
  }

  /** An argument as a template literal renders it. */
  function ArgText(args: Json, key: string): string {
    Arg(args, key).GetOr("undefined")
  }

  /** The message of reading a property of `null`. */
  function NullRead(key: string): string {
    "Cannot read properties of null (reading '" + key + "')"
  }

  /** The first argument a tool reads, which throws when the arguments are `null`. */
  function NullKey(name: string): string {
    if name == "navigate" then "url" else if name == "scroll" then "direction"
    else if name == "waitForNavigation" then "timeout" else "selector"
  }

  /** The scroll step: up for `'up'`, down for anything else. */
  function ScrollAmount(direction: string): (r: int)
    ensures r == -500 || r == 500
    ensures r < 0 <==> direction == "up"
  {
    if direction == "up" then -500 else 500
  }

  /** The visible text `toolGetText` reports. */
  function PageText(p: Page): (r: string)
    ensures |r| <= 5000
    ensures p.bodyText.Some? ==> r <= p.bodyText.value
  {
    match p.bodyText
    case None => ""
    case Some(t) => SliceTo(t, 5000)
  }

  function NotFound(sel: string): string {
    "Error: No element found for selector \"" + sel + "\""
  }

  function Navigate(env: ToolEnv, args: Json): Outcome {
    var tab := env.browser.navigated(NormalizeUrl(ArgText(args, "url")));
    Ok(env.codec.stringify(JObj([("url", JStr(tab.url)), ("title", JStr(tab.title))])))
  }

  function Click(b: Browser, sel: string): Outcome {
    InTab(b, if b.page.select(sel) == [] then NotFound(sel) else "Clicked element: " + sel)
  }

  function TypeText(b: Browser, sel: string, text: string, pressEnter: string): Outcome {
    InTab(b, if b.page.select(sel) == [] then NotFound(sel)
             else "Typed \"" + text + "\" into " + sel + (if pressEnter == "true" then " and pressed Enter" else ""))
  }

  function Scroll(b: Browser, dir: string): Outcome {
    InTab(b, "Scrolled " + dir + " by 500px. Current scroll position: "
             + b.page.scrolled(ScrollAmount(dir)) + "px")
  }

  function GetText(env: ToolEnv): Outcome {
    var p := env.browser.page;
    InTab(env.browser, env.codec.stringify(JObj([("url", JStr(p.href)), ("title", JStr(p.title)), ("text", JStr(PageText(p)))])))
  }

  /** `toolWaitForNavigation`: an already loaded tab answers at once. */
  function WaitForNavigation(env: ToolEnv, tab: Tab, timeout: int): Outcome {
    if tab.complete then
      Ok(env.codec.stringify(JObj([("status", JStr("already_loaded")), ("url", JStr(tab.url))])))
    else
      var updated := env.browser.waited(timeout);
      Ok(env.codec.stringify(JObj([("status", JStr("loaded")), ("url", JStr(updated.url)), ("title", JStr(updated.title))])))
  }

  /** The dispatch inside the `try`. Every tool but `getText` reads its
      arguments after looking up the tab, so `null` arguments throw there. */
  function Dispatch(env: ToolEnv, name: string, args: Json): Outcome {
    var b := env.browser;
    if name !in ToolNames then Ok("Error: Unknown tool \"" + name + "\"")
    else if ActiveTab(b).Thrown? then ActiveTab(b)
    else if name == "getText" then GetText(env)
    else if args.JNull? then
      Thrown(NullRead(NullKey(name)))
    else if name == "navigate" then Navigate(env, args)
    else if name == "click" then Click(b, ArgText(args, "selector"))
    else if name == "type" then
      TypeText(b, ArgText(args, "selector"), ArgText(args, "text"), Arg(args, "pressEnter").GetOr("false"))
    else if name == "scroll" then Scroll(b, ArgText(args, "direction"))
    else if name == "getElements" then
      InTab(b, GetElementsValue(env.codec, b.page.select(ArgText(args, "selector")), IntOr(Arg(args, "limit"), 10)))
    else WaitForNavigation(env, b.active.value, IntOr(Arg(args, "timeout"), 5000))
  }

  /** The string the getElements page function returns. */
  function GetElementsValue(c: Codec, els: seq<Element>, limit: int): string {
    c.stringify(JArr(Summaries(els, limit)))
  }

  /** `executeTool`: it never throws; a failure becomes `Error executing <name>: <message>`. */
  function ExecuteTool(env: ToolEnv, name: string, argsJson: string): (r: string)
    ensures Parse(env.codec, if argsJson == "" then "{}" else argsJson).None? ==>
              r == "Error executing " + name + ": " + env.syntaxError(if argsJson == "" then "{}" else argsJson)
    ensures Parse(env.codec, if argsJson == "" then "{}" else argsJson).Some? ==>
              var d := Dispatch(env, name, Parse(env.codec, if argsJson == "" then "{}" else argsJson).value);
              r == if d.Thrown? then "Error executing " + name + ": " + d.message else d.value
  {
    match Parse(env.codec, if argsJson == "" then "{}" else argsJson)
    case None => "Error executing " + name + ": " + env.syntaxError(if argsJson == "" then "{}" else argsJson)
    case Some(args) =>
      match Dispatch(env, name, args)
      case Ok(v) => v
      case Thrown(m) => "Error executing " + name + ": " + m
  }

  // ---- Properties of executeTool -----------------------------------------

  /** Missing arguments are the empty object. */
  lemma EmptyArgs(env: ToolEnv, name: string)
    ensures ExecuteTool(env, name, "") == ExecuteTool(env, name, "{}")
  {
  }

  /** An unknown name is reported as such once the arguments parse. */
  lemma UnknownTool(env: ToolEnv, name: string, argsJson: string)
    requires name !in ToolNames
    requires Parse(env.codec, if argsJson == "" then "{}" else argsJson).Some?
    ensures ExecuteTool(env, name, argsJson) == "Error: Unknown tool \"" + name + "\""
  {
  }

  /** Without an active tab every known tool fails the same way. */
  lemma NoActiveTab(env: ToolEnv, name: string, argsJson: string)
    requires name in ToolNames
    requires env.browser.active.None? || env.browser.active.value.id == 0
    requires Parse(env.codec, if argsJson == "" then "{}" else argsJson).Some?
    ensures ExecuteTool(env, name, argsJson) == "Error executing " + name + ": " + "No active tab found"
  {
    var args := Parse(env.codec, if argsJson == "" then "{}" else argsJson).value;
    assert Dispatch(env, name, args) == Thrown("No active tab found");
  }

  /** A script injection that fails is reported as the tool's error. */
  lemma InjectionFailure(env: ToolEnv, name: string, argsJson: string)
    requires name in ["click", "type", "scroll", "getText", "getElements"]
    requires ActiveTab(env.browser).Ok? && !env.browser.injection.Returns?
    requires Parse(env.codec, if argsJson == "" then "{}" else argsJson).Some?
    requires name == "getText" || !Parse(env.codec, if argsJson == "" then "{}" else argsJson).value.JNull?
    ensures env.browser.injection.NoResult? ==>
              ExecuteTool(env, name, argsJson) == "Error executing " + name + ": " + "Script execution returned no result"
    ensures env.browser.injection.Rejected? ==>
              ExecuteTool(env, name, argsJson) == "Error executing " + name + ": " + env.browser.injection.message
  {
    var args := Parse(env.codec, if argsJson == "" then "{}" else argsJson).value;
    assert Dispatch(env, name, args).Thrown?;
  }

  /** `null` arguments make every tool but getText throw on its first read. */
  lemma NullArguments(env: ToolEnv, name: string, argsJson: string)
    requires name in ToolNames && name != "getText"
    requires ActiveTab(env.browser).Ok?
    requires Parse(env.codec, if argsJson == "" then "{}" else argsJson) == Some(JNull)
    ensures ExecuteTool(env, name, argsJson) == "Error executing " + name + ": " + NullRead(NullKey(name))
  {
    assert Dispatch(env, name, JNull) == Thrown(NullRead(NullKey(name)));
  }

  /** Clicking or typing into a selector that matches nothing says so. */
  lemma MissingElement(env: ToolEnv, name: string, argsJson: string)
    requires name == "click" || name == "type"
    requires ActiveTab(env.browser).Ok? && env.browser.injection.Returns?
    requires Parse(env.codec, if argsJson == "" then "{}" else argsJson).Some?
    requires !Parse(env.codec, if argsJson == "" then "{}" else argsJson).value.JNull?
    requires env.browser.page.select(ArgText(Parse(env.codec, if argsJson == "" then "{}" else argsJson).value, "selector")) == []
    ensures ExecuteTool(env, name, argsJson)
            == NotFound(ArgText(Parse(env.codec, if argsJson == "" then "{}" else argsJson).value, "selector"))
  {
  }

  /** navigate loads the normalised URL. */
  lemma NavigateTarget(env: ToolEnv, args: Json)
    requires ActiveTab(env.browser).Ok? && !args.JNull?
    ensures Dispatch(env, "navigate", args)
            == Ok(env.codec.stringify(JObj([("url", JStr(env.browser.navigated(NormalizeUrl(ArgText(args, "url"))).url)),
                                            ("title", JStr(env.browser.navigated(NormalizeUrl(ArgText(args, "url"))).title))])))
  {
  }

  /** waitForNavigation reports `already_loaded` exactly when the tab had
      finished loading, and `loaded` otherwise. */
  lemma WaitStatus(env: ToolEnv, tab: Tab, timeout: int)
    ensures WaitForNavigation(env, tab, timeout).Ok?
    ensures tab.complete ==>
              WaitForNavigation(env, tab, timeout).value
              == env.codec.stringify(JObj([("status", JStr("already_loaded")), ("url", JStr(tab.url))]))
    ensures !tab.complete ==>
              WaitForNavigation(env, tab, timeout).value
              == env.codec.stringify(JObj([("status", JStr("loaded")), ("url", JStr(env.browser.waited(timeout).url)),
                                           ("title", JStr(env.browser.waited(timeout).title))]))
  {
  }

  /** Every tool in the table is dispatched, and the table lists each name once. */
  lemma TableMatchesDispatch()
    ensures |BrowserTools| == |ToolNames|
    ensures forall i :: 0 <= i < |BrowserTools| ==> BrowserTools[i].name == ToolNames[i]
    ensures forall i, j :: 0 <= i < j < |ToolNames| ==> ToolNames[i] != ToolNames[j]
  {
  }

  /** Every required parameter of a tool is one of its properties. */
  lemma RequiredAreProperties()
    ensures forall i, r :: 0 <= i < |BrowserTools| && BrowserTools[i].required.Some? && r in BrowserTools[i].required.value ==>
              exists j :: 0 <= j < |BrowserTools[i].properties| && BrowserTools[i].properties[j].0 == r
  {
    forall i, r | 0 <= i < |BrowserTools| && BrowserTools[i].required.Some? && r in BrowserTools[i].required.value
      ensures exists j :: 0 <= j < |BrowserTools[i].properties| && BrowserTools[i].properties[j].0 == r
    {
      var t := BrowserTools[i];
      if i == 2 && r == "text" {
        assert t.properties[1].0 == r;
      } else {
        assert t.properties[0].0 == r;
      }
    }
  }
}
