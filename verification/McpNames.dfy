/** The names under which the tools of MCP servers are offered to the model: at most 64 plain characters, and never two
  * alike, whatever the servers call their tools. */
module McpNames {
  import opened Wrappers
  import opened Utf8

  const MAX_VISIBLE_NAME_LEN: nat := 64
  const SERVER_COMPONENT_CAP: nat := 24
  const PREFIX := "mcp__"

  type U32 = n: nat | n < 0x1_0000_0000

  /** A hash of server id, tool name, index and attempt. */
  type Hash = (string, string, nat, nat) -> U32

  // ---------- Normalized components ----------

  predicate IsPlain(c: char) {
    'a' <= c <= 'z' || 'A' <= c <= 'Z' || '0' <= c <= '9' || c == '_' || c == '-'
  }

  predicate Plain(text: string) {
    forall i | 0 <= i < |text| :: IsPlain(text[i])
  }

  function Replaced(value: string): (r: string)
    ensures Plain(r)
  {
    seq(|value|, i requires 0 <= i < |value| => if IsPlain(value[i]) then value[i] else '_')
  }

  function TrimFront(text: string): (r: string)
    ensures Plain(text) ==> Plain(r)
    ensures r != "" ==> r[0] != '_'
  {
    if text != "" && text[0] == '_' then TrimFront(text[1..]) else text
  }

  function TrimBack(text: string): (r: string)
    ensures Plain(text) ==> Plain(r)
    ensures r != "" ==> r[|r| - 1] != '_'
    ensures r <= text
  {
    if text != "" && text[|text| - 1] == '_' then TrimBack(text[..|text| - 1]) else text
  }

  function NormalizedId(value: string): (r: string)
    ensures Plain(r)
    ensures r != "" ==> r[0] != '_' && r[|r| - 1] != '_'
  {
    TrimBack(TrimFront(Replaced(value)))
  }

  /** Normalizing again changes nothing, so an id that was normalized when its server was registered is found again. */
  lemma NormalizedIdIsFixed(value: string)
    ensures NormalizedId(NormalizedId(value)) == NormalizedId(value)
  {
    var id := NormalizedId(value);
    assert Replaced(id) == id;
  }

  /** Nothing of it can be lost: plain characters, and no underscore at an end. */
  predicate Settled(value: string) {
    Plain(value) && (value == "" || (value[0] != '_' && value[|value| - 1] != '_'))
  }

  predicate Dropped(c: char) {
    !IsPlain(c) || c == '_'
  }

  ghost predicate MiddleOf(r: string, value: string, from: nat) {
    && from + |r| <= |value|
    && (forall k | 0 <= k < |r| :: r[k] == if IsPlain(value[from + k]) then value[from + k] else '_')
    && (forall k | 0 <= k < from || from + |r| <= k < |value| :: Dropped(value[k]))
  }

  lemma {:induction false} TrimFrontCuts(text: string)
    ensures var r := TrimFront(text);
            && |r| <= |text| && r == text[|text| - |r|..] && forall k | 0 <= k < |text| - |r| :: text[k] == '_'
  {
    if text != "" && text[0] == '_' {
      TrimFrontCuts(text[1..]);
      assert forall k | 0 < k < |text| :: text[k] == text[1..][k - 1];
    }
  }

  lemma {:induction false} TrimBackCuts(text: string)
    ensures forall k | |TrimBack(text)| <= k < |text| :: text[k] == '_'
  {
    if text != "" && text[|text| - 1] == '_' {
      TrimBackCuts(text[..|text| - 1]);
    }
  }

  lemma TrimmedMiddle(text: string)
    ensures var front := TrimFront(text);
            var r, from := TrimBack(front), |text| - |front|;
            && 0 <= from && from + |r| <= |text| && r == text[from..from + |r|]
            && (forall k | 0 <= k < from || from + |r| <= k < |text| :: text[k] == '_')
  {
    var front := TrimFront(text);
    TrimFrontCuts(text);
    TrimBackCuts(front);
    var from := |text| - |front|;
    assert forall k | from <= k < |text| :: text[k] == front[k - from];
  }

  lemma SettledStays(value: string)
    requires Settled(value)
    ensures NormalizedId(value) == value
  {
    assert Replaced(value) == value;
  }

  /** Normalizing keeps the middle of the value, with an underscore for each character that is not plain; only such
    * characters and underscores are lost, at the ends, and none is left there. */
  lemma NormalizedIsTheMiddle(value: string)
    ensures exists from :: MiddleOf(NormalizedId(value), value, from)
    ensures Settled(NormalizedId(value))
  {
    var replaced := Replaced(value);
    TrimmedMiddle(replaced);
    var from := |replaced| - |TrimFront(replaced)|;
    assert NormalizedId(value) == TrimBack(TrimFront(replaced));
    hide TrimFront, TrimBack, Plain, NormalizedId;
    ReplacedMiddle(value, NormalizedId(value), from);
  }

  lemma ReplacedMiddle(value: string, r: string, from: nat)
    requires var replaced := Replaced(value);
             && from + |r| <= |replaced| && r == replaced[from..from + |r|]
             && forall k | 0 <= k < from || from + |r| <= k < |replaced| :: replaced[k] == '_'
    ensures MiddleOf(r, value, from)
  {
    hide IsPlain;
    var replaced := Replaced(value);
    assert forall k | 0 <= k < |r| :: r[k] == replaced[from + k];
    assert forall k | 0 <= k < |value| :: replaced[k] == '_' ==> Dropped(value[k]);
  }

  function NormalizedComponent(value: string, fallback: string): (r: string)
    requires Plain(fallback) && fallback != ""
    ensures Plain(r) && r != ""
  {
    var normalized := NormalizedId(value);
    if normalized == "" then fallback else normalized
  }

  // ---------- Suffixes ----------

  function HexDigit(n: nat): (r: char)
    requires n < 16
    ensures IsPlain(r)
  {
    if n < 10 then (n + '0' as int) as char else (n - 10 + 'a' as int) as char
  }

  /** The last `width` hexadecimal digits of a number. */
  function Hex(n: nat, width: nat): (r: string)
    ensures |r| == width && Plain(r)
  {
    if width == 0 then "" else Hex(n / 16, width - 1) + [HexDigit(n % 16)]
  }

  function Power16(width: nat): nat {
    if width == 0 then 1 else 16 * Power16(width - 1)
  }

  lemma {:induction false} HexIsInjective(a: nat, b: nat, width: nat)
    ensures a < Power16(width) && b < Power16(width) && Hex(a, width) == Hex(b, width) ==> a == b
  {
    if width > 0 && Hex(a, width) == Hex(b, width) {
      assert Hex(a, width)[width - 1] == Hex(b, width)[width - 1];
      assert Hex(a, width)[..width - 1] == Hex(a / 16, width - 1);
      assert Hex(b, width)[..width - 1] == Hex(b / 16, width - 1);
      HexIsInjective(a / 16, b / 16, width - 1);
    }
  }

  function DigitValue(c: char): int {
    if '0' <= c <= '9' then c as int - '0' as int else c as int - 'a' as int + 10
  }

  function HexValue(text: string): int {
    if text == "" then 0 else 16 * HexValue(text[..|text| - 1]) + DigitValue(text[|text| - 1])
  }

  lemma {:induction false} HexReads(n: nat, width: nat)
    requires n < Power16(width)
    ensures HexValue(Hex(n, width)) == n
  {
    if width > 0 {
      HexReads(n / 16, width - 1);
      assert Hex(n, width)[..width - 1] == Hex(n / 16, width - 1);
    }
  }

  function Suffix(hash: U32): (r: string)
    ensures |r| == 9 && Plain(r)
  {
    "_" + Hex(hash, 8)
  }

  lemma SuffixIsInjective(a: U32, b: U32)
    requires Suffix(a) == Suffix(b)
    ensures a == b
  {
    assert Suffix(a)[1..] == Hex(a, 8) && Suffix(b)[1..] == Hex(b, 8);
    assert Power16(8) == 0x1_0000_0000;
    HexIsInjective(a, b, 8);
  }

  // ---------- Visible names ----------

  function Truncated(value: string, maxLen: nat): (r: string)
    ensures |r| <= maxLen && |r| <= |value|
    ensures Plain(value) ==> Plain(r)
    ensures value != "" && maxLen > 0 ==> r != ""
  {
    if |value| <= maxLen then value else value[..maxLen]
  }

  function Joined(server: string, tool: string): (r: string)
    ensures |r| == |PREFIX| + |server| + 2 + |tool|
    ensures PREFIX <= r
    ensures Plain(server) && Plain(tool) ==> Plain(r)
  {
    PREFIX + server + "__" + tool
  }

  function Unsuffixed(server: string, tool: string): (r: string)
    ensures PREFIX <= r && Plain(r)
  {
    Joined(NormalizedComponent(server, "server"), NormalizedComponent(tool, "tool"))
  }

  function Max(a: int, b: int): int {
    if a < b then b else a
  }

  function Min(a: int, b: int): int {
    if a < b then a else b
  }

  /** The two components, cut so that they fit beside the suffix. No budget is ever negative. */
  function Suffixed(server: string, tool: string, suffix: string): (r: string)
    requires Plain(server) && Plain(tool) && Plain(suffix) && server != "" && tool != "" && |suffix| == 9
    ensures |r| <= MAX_VISIBLE_NAME_LEN && PREFIX <= r && Plain(r)
    ensures |r| >= 9 && r[|r| - 9..] == suffix
  {
    var componentBudget: nat := MAX_VISIBLE_NAME_LEN - |PREFIX| - |"__"| - |suffix|;
    var serverBudget := Max(Min(Max(componentBudget - 1, 0), SERVER_COMPONENT_CAP), 1);
    var visibleServer := Truncated(server, serverBudget);
    var toolBudget: nat := componentBudget - |visibleServer|;
    var visibleTool := Truncated(tool, Max(toolBudget, 1));
    var r := Joined(visibleServer, visibleTool) + suffix;
    assert r[|r| - 9..] == suffix;
    r
  }

  function Candidate(server: string, tool: string, hash: U32): (r: string)
    ensures |r| <= MAX_VISIBLE_NAME_LEN && PREFIX <= r && Plain(r)
  {
    Suffixed(NormalizedComponent(server, "server"), NormalizedComponent(tool, "tool"), Suffix(hash))
  }

  lemma CandidateIsInjective(server: string, tool: string, a: U32, b: U32)
    requires Candidate(server, tool, a) == Candidate(server, tool, b)
    ensures a == b
  {
    SuffixIsInjective(a, b);
  }

  /** A tool as one server lists it: the id of the server, the tool's name there and its position in the listing. */
  datatype Tool = Tool(server: string, name: string, index: nat)

  function Attempted(tool: Tool, hash: Hash, attempt: nat): string {
    Candidate(tool.server, tool.name, hash(tool.server, tool.name, tool.index, attempt))
  }

  lemma SuffixedSpelled(server: string, tool: string, suffix: string)
    requires Plain(server) && Plain(tool) && Plain(suffix) && server != "" && tool != "" && |suffix| == 9
    ensures var k := Min(|server|, 24);
            Suffixed(server, tool, suffix) == "mcp__" + server[..k] + "__" + tool[..Min(|tool|, 48 - k)] + suffix
  {
    assert server[..|server|] == server && tool[..|tool|] == tool;
    hide Plain;
  }

  lemma CandidateIsSuffixed(server: string, tool: string, hash: U32)
    requires server != "" && tool != "" && Settled(server) && Settled(tool)
    ensures Candidate(server, tool, hash) == Suffixed(server, tool, Suffix(hash))
  {
    SettledStays(server);
    SettledStays(tool);
    hide NormalizedId, Plain, Suffixed;
  }

  /** A hashed name shows the server, cut to 24 characters, and as much of the tool as fits, and ends in eight
    * digits that read as the hash. */
  lemma CandidateSpelled(server: string, tool: string, hash: U32)
    requires server != "" && tool != "" && Settled(server) && Settled(tool)
    ensures var k, digits := Min(|server|, 24), Hex(hash, 8);
            && Candidate(server, tool, hash) ==
               "mcp__" + server[..k] + "__" + tool[..Min(|tool|, 48 - k)] + ("_" + digits)
            && HexValue(digits) == hash
  {
    assert Power16(8) == 0x1_0000_0000;
    HexReads(hash, 8);
    CandidateIsSuffixed(server, tool, hash);
    SuffixedSpelled(server, tool, Suffix(hash));
    hide Hex, Plain, HexValue, Power16, Suffixed, Candidate;
  }

  /** The first unused candidate among the attempts before `limit`. */
  function FirstUnused(tool: Tool, used: set<string>, hash: Hash, attempt: nat, limit: nat): Option<string>
    requires attempt <= limit
    decreases limit - attempt
  {
    if attempt == limit then None
    else if Attempted(tool, hash, attempt) !in used then Some(Attempted(tool, hash, attempt))
    else FirstUnused(tool, used, hash, attempt + 1, limit)
  }

  lemma {:induction false} FirstUnusedIff(tool: Tool, used: set<string>, hash: Hash, attempt: nat, limit: nat)
    requires attempt <= limit
    ensures var r := FirstUnused(tool, used, hash, attempt, limit);
            && (r.Some? <==> exists n: nat :: attempt <= n < limit && Attempted(tool, hash, n) !in used)
            && (r.Some? ==>
                  r.value !in used && exists n: nat :: attempt <= n < limit && r.value == Attempted(tool, hash, n))
    decreases limit - attempt
  {
    hide Attempted;
    if attempt < limit {
      FirstUnusedIff(tool, used, hash, attempt + 1, limit);
    }
  }

  /** The plain spelling when it fits and is unused, else the first unused candidate; `None` when `limit` attempts find
    * no name. */
  function VisibleName(tool: Tool, used: set<string>, hash: Hash, limit: nat): Option<string> {
    var unsuffixed := Unsuffixed(tool.server, tool.name);
    if |unsuffixed| <= MAX_VISIBLE_NAME_LEN && unsuffixed !in used then Some(unsuffixed)
    else FirstUnused(tool, used, hash, 0, limit)
  }

  /** A tool whose plain spelling fits and is unused is named by its server and its name as they are. */
  lemma PlainSpelling(tool: Tool, used: set<string>, hash: Hash, limit: nat)
    requires tool.server != "" && tool.name != "" && Settled(tool.server) && Settled(tool.name)
    requires |tool.server| + |tool.name| <= 57
    ensures var name := "mcp__" + tool.server + "__" + tool.name;
            name !in used ==> VisibleName(tool, used, hash, limit) == Some(name)
  {
    SettledStays(tool.server);
    SettledStays(tool.name);
    hide NormalizedId, Plain, FirstUnused;
  }

  lemma {:induction false} FirstUnusedStays(
    tool: Tool, used: set<string>, hash: Hash, attempt: nat, limit: nat, more: nat)
    requires attempt <= limit <= more && FirstUnused(tool, used, hash, attempt, limit).Some?
    ensures FirstUnused(tool, used, hash, attempt, more) == FirstUnused(tool, used, hash, attempt, limit)
    decreases limit - attempt
  {
    hide Attempted;
    if Attempted(tool, hash, attempt) in used {
      FirstUnusedStays(tool, used, hash, attempt + 1, limit, more);
    }
  }

  /** A name found within a limit is the one found without it. */
  lemma LimitDoesNotMatter(tool: Tool, used: set<string>, hash: Hash, limit: nat, more: nat)
    requires limit <= more && VisibleName(tool, used, hash, limit).Some?
    ensures VisibleName(tool, used, hash, more) == VisibleName(tool, used, hash, limit)
  {
    hide Unsuffixed, FirstUnused;
    if FirstUnused(tool, used, hash, 0, limit).Some? {
      FirstUnusedStays(tool, used, hash, 0, limit, more);
    }
  }

  method VisibleToolName(tool: Tool, used: set<string>, hash: Hash, limit: nat)
    returns (name: Option<string>, usedAfter: set<string>)
    ensures name == VisibleName(tool, used, hash, limit)
    ensures usedAfter == if name.Some? then used + {name.value} else used
  {
    var server, toolName := NormalizedComponent(tool.server, "server"), NormalizedComponent(tool.name, "tool");
    var unsuffixed := Joined(server, toolName);
    assert unsuffixed == Unsuffixed(tool.server, tool.name);
    hide Plain, Joined, Suffixed, Unsuffixed, NormalizedComponent, Suffix;
    if |unsuffixed| <= MAX_VISIBLE_NAME_LEN && unsuffixed !in used {
      return Some(unsuffixed), used + {unsuffixed};
    }
    for attempt := 0 to limit
      invariant FirstUnused(tool, used, hash, 0, limit) == FirstUnused(tool, used, hash, attempt, limit)
    {
      var candidate := Suffixed(server, toolName, Suffix(hash(tool.server, tool.name, tool.index, attempt)));
      assert candidate == Attempted(tool, hash, attempt);
      if |candidate| <= MAX_VISIBLE_NAME_LEN && candidate !in used {
        return Some(candidate), used + {candidate};
      }
    }
    return None, used;
  }

  // ---------- A whole refresh ----------

  /** A server's answer to a refresh: the names of its tools in order, or `None` when connecting or listing failed. */
  datatype Answer = Answer(server: string, tools: Option<seq<string>>)

  function ToolsOf(server: string, names: seq<string>): (r: seq<Tool>)
    ensures |r| == |names|
  {
    seq(|names|, i requires 0 <= i < |names| => Tool(server, names[i], i))
  }

  function ToolsIn(answer: Answer): seq<Tool> {
    match answer.tools
    case Some(names) => ToolsOf(answer.server, names)
    case None => []
  }

  /** The tools of a refresh in the order they are named. */
  function Offered(answers: seq<Answer>): seq<Tool> {
    if answers == [] then [] else ToolsIn(answers[0]) + Offered(answers[1..])
  }

  function Names(texts: seq<string>): set<string> {
    set t <- texts
  }

  /** Names given one after another, each kept from those after it. */
  function NamedAfter(given: seq<string>, tools: seq<Tool>, hash: Hash, limit: nat): Option<seq<string>>
    decreases |tools|
  {
    if tools == [] then Some(given)
    else
      match VisibleName(tools[0], Names(given), hash, limit)
      case None => None
      case Some(name) => NamedAfter(given + [name], tools[1..], hash, limit)
  }

  lemma {:induction false} NamedConcat(given: seq<string>, a: seq<Tool>, b: seq<Tool>, hash: Hash, limit: nat)
    ensures var first := NamedAfter(given, a, hash, limit);
            NamedAfter(given, a + b, hash, limit) ==
            if first.None? then None else NamedAfter(first.value, b, hash, limit)
    decreases |a|
  {
    hide VisibleName;
    if a == [] {
      assert a + b == b;
    } else {
      assert (a + b)[1..] == a[1..] + b;
      var name := VisibleName(a[0], Names(given), hash, limit);
      if name.Some? {
        NamedConcat(given + [name.value], a[1..], b, hash, limit);
      }
    }
  }

  method DiscoveredTools(server: string, names: seq<string>, used: set<string>, ghost given: seq<string>, hash: Hash,
                         limit: nat)
    returns (visible: Option<seq<string>>, usedAfter: set<string>)
    requires used == Names(given)
    ensures NamedAfter(given, ToolsOf(server, names), hash, limit) ==
            if visible.Some? then Some(given + visible.value) else None
    ensures visible.Some? ==> usedAfter == Names(given + visible.value)
  {
    hide VisibleName;
    ghost var tools := ToolsOf(server, names);
    var named: seq<string> := [];
    usedAfter := used;
    assert given + [] == given && tools[0..] == tools;
    for index := 0 to |names|
      invariant usedAfter == Names(given + named)
      invariant NamedAfter(given, tools, hash, limit) == NamedAfter(given + named, tools[index..], hash, limit)
    {
      var name;
      name, usedAfter := VisibleToolName(Tool(server, names[index], index), usedAfter, hash, limit);
      assert tools[index..][0] == Tool(server, names[index], index) && tools[index..][1..] == tools[index + 1..];
      if name.None? {
        return None, usedAfter;
      }
      assert given + named + [name.value] == given + (named + [name.value]);
      named := named + [name.value];
    }
    visible := Some(named);
  }

  method RefreshTools(answers: seq<Answer>, hash: Hash, limit: nat) returns (visible: Option<seq<string>>)
    ensures visible == NamedAfter([], Offered(answers), hash, limit)
  {
    hide VisibleName, ToolsOf, NamedAfter;
    var all: seq<string>, used: set<string> := [], {};
    assert answers[0..] == answers;
    for i := 0 to |answers|
      invariant used == Names(all)
      invariant NamedAfter([], Offered(answers), hash, limit) == NamedAfter(all, Offered(answers[i..]), hash, limit)
    {
      OfferedFirst(answers, i);
      match answers[i].tools {
        case Some(names) =>
          NamedConcat(all, ToolsOf(answers[i].server, names), Offered(answers[i + 1..]), hash, limit);
          var tools;
          tools, used := DiscoveredTools(answers[i].server, names, used, all, hash, limit);
          if tools.None? {
            return None;
          }
          all := all + tools.value;
        case None =>
      }
    }
    NamedNothing(all, hash, limit);
    visible := Some(all);
  }

  lemma NamedNothing(given: seq<string>, hash: Hash, limit: nat)
    ensures NamedAfter(given, Offered([]), hash, limit) == Some(given)
  {
  }

  lemma OfferedFirst(answers: seq<Answer>, i: nat)
    requires i < |answers|
    ensures Offered(answers[i..]) == ToolsIn(answers[i]) + Offered(answers[i + 1..])
    ensures answers[i].tools.None? ==> Offered(answers[i..]) == Offered(answers[i + 1..])
  {
    assert answers[i..][1..] == answers[i + 1..];
    assert [] + Offered(answers[i + 1..]) == Offered(answers[i + 1..]);
  }

  // ---------- What the names are ----------

  predicate IsVisible(name: string) {
    |name| <= MAX_VISIBLE_NAME_LEN && PREFIX <= name && Plain(name)
  }

  lemma VisibleNameIsFresh(tool: Tool, used: set<string>, hash: Hash, limit: nat)
    ensures var name := VisibleName(tool, used, hash, limit);
            name.Some? ==> name.value !in used && IsVisible(name.value)
  {
    FirstUnusedIff(tool, used, hash, 0, limit);
    hide FirstUnused, Candidate, Unsuffixed, Plain;
  }

  predicate Distinct(names: seq<string>) {
    forall i, j | 0 <= i < j < |names| :: names[i] != names[j]
  }

  predicate AllVisible(names: seq<string>) {
    forall i | 0 <= i < |names| :: IsVisible(names[i])
  }

  /** Over a whole refresh and for every hash: one name for each tool, all different, and each within the bounds of
    * a tool name. */
  lemma {:induction false} NamesAreDistinct(given: seq<string>, tools: seq<Tool>, hash: Hash, limit: nat)
    requires Distinct(given) && AllVisible(given)
    requires NamedAfter(given, tools, hash, limit).Some?
    ensures var names := NamedAfter(given, tools, hash, limit).value;
            |names| == |given| + |tools| && given <= names && Distinct(names) && AllVisible(names)
    decreases |tools|
  {
    if tools != [] {
      VisibleNameIsFresh(tools[0], Names(given), hash, limit);
      var name := VisibleName(tools[0], Names(given), hash, limit).value;
      hide VisibleName, IsVisible;
      NamesAreDistinct(given + [name], tools[1..], hash, limit);
    }
  }

  // ---------- When a name is found ----------

  /** A tool stays without a name exactly when its plain spelling does not fit or is used, and every attempt within the
    * limit is used. */
  lemma NamelessIff(tool: Tool, used: set<string>, hash: Hash, limit: nat)
    ensures VisibleName(tool, used, hash, limit).None? <==>
            (|Unsuffixed(tool.server, tool.name)| > MAX_VISIBLE_NAME_LEN || Unsuffixed(tool.server, tool.name) in used)
            && forall n: nat | n < limit :: Attempted(tool, hash, n) in used
  {
    FirstUnusedIff(tool, used, hash, 0, limit);
    hide FirstUnused, Attempted, Unsuffixed;
  }

  /** The hash gives different attempts at a tool different values, as long as they are below `limit`. */
  predicate Spreads(hash: Hash, tool: Tool, limit: nat) {
    forall a: nat, b: nat | a < b < limit ::
      hash(tool.server, tool.name, tool.index, a) != hash(tool.server, tool.name, tool.index, b)
  }

  ghost function AttemptedBelow(tool: Tool, hash: Hash, limit: nat): set<string> {
    set n: nat | n < limit :: Attempted(tool, hash, n)
  }

  lemma AttemptsDiffer(tool: Tool, hash: Hash, a: nat, b: nat, limit: nat)
    requires Spreads(hash, tool, limit) && a < b < limit
    ensures Attempted(tool, hash, a) != Attempted(tool, hash, b)
  {
    hide Candidate;
    var (x, y) := (hash(tool.server, tool.name, tool.index, a), hash(tool.server, tool.name, tool.index, b));
    if Candidate(tool.server, tool.name, x) == Candidate(tool.server, tool.name, y) {
      CandidateIsInjective(tool.server, tool.name, x, y);
    }
  }

  lemma {:induction false} AttemptsSpread(tool: Tool, hash: Hash, limit: nat)
    requires Spreads(hash, tool, limit)
    ensures |AttemptedBelow(tool, hash, limit)| == limit
  {
    hide Attempted;
    if limit > 0 {
      AttemptsSpread(tool, hash, limit - 1);
      var last := Attempted(tool, hash, limit - 1);
      assert AttemptedBelow(tool, hash, limit) == AttemptedBelow(tool, hash, limit - 1) + {last};
      forall n: nat | n < limit - 1 ensures Attempted(tool, hash, n) != last {
        AttemptsDiffer(tool, hash, n, limit - 1, limit);
      }
    }
  }

  /** With fewer names in use than attempts that spread, a name is found. */
  lemma SpreadFindsName(tool: Tool, used: set<string>, hash: Hash, limit: nat)
    requires Spreads(hash, tool, limit) && |used| < limit
    ensures VisibleName(tool, used, hash, limit).Some?
  {
    AttemptsSpread(tool, hash, limit);
    hide Attempted, Spreads, VisibleName;
    var attempted := AttemptedBelow(tool, hash, limit);
    if attempted <= used {
      SubsetSize(attempted, used);
    }
    var name :| name in attempted && name !in used;
    var n: nat :| n < limit && Attempted(tool, hash, n) == name;
    NamelessIff(tool, used, hash, limit);
  }

  // ---------- The hash of the original ----------

  function Power2(width: nat): nat {
    if width == 0 then 1 else 2 * Power2(width - 1)
  }

  /** The exclusive or of the lowest `width` bits of two numbers. */
  function Xor(a: nat, b: nat, width: nat): (r: nat)
    ensures r < Power2(width)
  {
    if width == 0 then 0 else 2 * Xor(a / 2, b / 2, width - 1) + if a % 2 == b % 2 then 0 else 1
  }

  lemma {:induction false} XorIsInjective(a: nat, b: nat, c: nat, width: nat)
    ensures a < Power2(width) && b < Power2(width) && Xor(a, c, width) == Xor(b, c, width) ==> a == b
    ensures a < Power2(width) && b < Power2(width) && Xor(c, a, width) == Xor(c, b, width) ==> a == b
  {
    if width > 0 {
      XorIsInjective(a / 2, b / 2, c / 2, width - 1);
    }
  }

  function XorByte(h: U32, b: Byte): U32 {
    assert Power2(8) == 256;
    h - h % 256 + Xor(h % 256, b, 8)
  }

  function Mixed(h: U32, b: Byte): U32 {
    XorByte(h, b) * 0x0100_0193 % 0x1_0000_0000
  }

  function HashFrom(h: U32, bytes: seq<Byte>): U32
    decreases |bytes|
  {
    if bytes == [] then h else HashFrom(Mixed(h, bytes[0]), bytes[1..])
  }

  function LittleEndian(n: nat, width: nat): (r: seq<Byte>)
    ensures |r| == width
  {
    if width == 0 then [] else [n % 256] + LittleEndian(n / 256, width - 1)
  }

  /** The bytes hashed for a tool before those of the attempt. */
  function ToolBytes(server: string, tool: string, index: nat): seq<Byte> {
    Encode(server) + [0] + Encode(tool) + [0] + LittleEndian(index, 8) + [0]
  }

  /** 32-bit FNV-1a over the two names, the index and the attempt, as a 64-bit target lays them out. */
  function StableHash32(server: string, tool: string, index: nat, attempt: nat): U32 {
    HashFrom(0x811c_9dc5, ToolBytes(server, tool, index) + LittleEndian(attempt, 8))
  }

  method ComputeStableHash32(server: string, tool: string, index: nat, attempt: nat) returns (hash: U32)
    ensures hash == StableHash32(server, tool, index, attempt)
  {
    var bytes := ToolBytes(server, tool, index) + LittleEndian(attempt, 8);
    hide ToolBytes, LittleEndian, XorByte;
    hash := 0x811c_9dc5;
    assert bytes[0..] == bytes;
    for i := 0 to |bytes|
      invariant HashFrom(0x811c_9dc5, bytes) == HashFrom(hash, bytes[i..])
    {
      assert bytes[i..][0] == bytes[i] && bytes[i..][1..] == bytes[i + 1..];
      hash := XorByte(hash, bytes[i]);
      hash := hash * 0x0100_0193 % 0x1_0000_0000;
    }
  }

  lemma LetterXored()
    ensures Xor(0xc5, 0x61, 8) == 0xa4
  {
    hide Power2;
    assert Xor(3, 1, 2) == 2 * Xor(1, 0, 1);
    assert Xor(12, 6, 4) == 2 * Xor(6, 3, 3) && Xor(6, 3, 3) == 2 * Xor(3, 1, 2) + 1;
    assert Xor(49, 24, 6) == 2 * Xor(24, 12, 5) + 1 && Xor(24, 12, 5) == 2 * Xor(12, 6, 4);
    assert Xor(197, 97, 8) == 2 * Xor(98, 48, 7) && Xor(98, 48, 7) == 2 * Xor(49, 24, 6);
  }

  lemma LetterMixed()
    ensures Mixed(0x811c_9dc5, 0x61) == 0xe40c_292c
  {
    LetterXored();
    hide Xor, Power2;
    assert 0x811c_9dc5 % 256 == 0xc5;
    assert XorByte(0x811c_9dc5, 0x61) == 0x811c_9da4;
    hide XorByte;
  }

  /** The published 32-bit FNV-1a values of the empty input and of the one letter a. */
  lemma PublishedVectors()
    ensures HashFrom(0x811c_9dc5, []) == 0x811c_9dc5
    ensures HashFrom(0x811c_9dc5, ['a' as Byte]) == 0xe40c_292c
  {
    LetterMixed();
    hide Mixed;
    assert ['a' as Byte][1..] == [];
    assert HashFrom(0xe40c_292c, []) == 0xe40c_292c;
  }

  lemma Cancel(d: int, c: int, inverse: int, k: int, q: int, m: int)
    requires d * c == q * m && c * inverse == 1 + k * m
    ensures d == (q * inverse - d * k) * m
  {
    assert d * (c * inverse) == (d * c) * inverse;
    assert d * (1 + k * m) == d + d * k * m;
    assert q * m * inverse == q * inverse * m;
  }

  lemma MultipleBounds(n: int, m: int)
    requires 0 < m
    ensures (n > 0 ==> n * m >= m) && (n < 0 ==> n * m <= -m)
  {
  }

  lemma OnlyZero(d: int, n: int, m: int)
    requires d == n * m && -m < d < m
    ensures d == 0
  {
    MultipleBounds(n, m);
  }

  /** Multiplication by the odd FNV prime loses nothing: 899433627 is its inverse. */
  lemma ProductIsInjective(a: U32, b: U32)
    requires a * 0x0100_0193 % 0x1_0000_0000 == b * 0x0100_0193 % 0x1_0000_0000
    ensures a == b
  {
    var k := 0x0100_0193 * 899433627 / 0x1_0000_0000;
    var q := a * 0x0100_0193 / 0x1_0000_0000 - b * 0x0100_0193 / 0x1_0000_0000;
    Cancel(a - b, 0x0100_0193, 899433627, k, q, 0x1_0000_0000);
    OnlyZero(a - b, q * 899433627 - (a - b) * k, 0x1_0000_0000);
  }

  lemma MixedIsInjective(g: U32, h: U32, b: Byte, c: Byte)
    ensures Mixed(g, b) == Mixed(h, b) ==> g == h
    ensures Mixed(h, b) == Mixed(h, c) ==> b == c
  {
    if Mixed(g, b) == Mixed(h, b) {
      ProductIsInjective(XorByte(g, b), XorByte(h, b));
      XorByteIsInjective(g, h, b, c);
    }
    if Mixed(h, b) == Mixed(h, c) {
      ProductIsInjective(XorByte(h, b), XorByte(h, c));
      XorByteIsInjective(g, h, b, c);
    }
  }

  lemma XorByteIsInjective(g: U32, h: U32, b: Byte, c: Byte)
    ensures XorByte(g, b) == XorByte(h, b) ==> g == h
    ensures XorByte(h, b) == XorByte(h, c) ==> b == c
  {
    assert Power2(8) == 256;
    XorIsInjective(g % 256, h % 256, b, 8);
    XorIsInjective(b, c, h % 256, 8);
    hide Xor;
    assert XorByte(g, b) / 256 == g / 256 && XorByte(h, b) / 256 == h / 256;
  }

  lemma {:induction false} HashFromIsInjective(g: U32, h: U32, bytes: seq<Byte>)
    requires HashFrom(g, bytes) == HashFrom(h, bytes)
    ensures g == h
    decreases |bytes|
  {
    if bytes != [] {
      hide Mixed;
      HashFromIsInjective(Mixed(g, bytes[0]), Mixed(h, bytes[0]), bytes[1..]);
      MixedIsInjective(g, h, bytes[0], bytes[0]);
    }
  }

  lemma {:induction false} HashFromConcat(h: U32, a: seq<Byte>, b: seq<Byte>)
    ensures HashFrom(h, a + b) == HashFrom(HashFrom(h, a), b)
    decreases |a|
  {
    if a == [] {
      assert a + b == b;
    } else {
      hide Mixed;
      HashFromConcat(Mixed(h, a[0]), a[1..], b);
      assert (a + b)[1..] == a[1..] + b;
    }
  }

  function HashOfTool(tool: Tool): U32 {
    HashFrom(0x811c_9dc5, ToolBytes(tool.server, tool.name, tool.index))
  }

  lemma HashOfAttempt(tool: Tool, n: nat)
    requires n < 256
    ensures StableHash32(tool.server, tool.name, tool.index, n) ==
            HashFrom(Mixed(HashOfTool(tool), n), LittleEndian(0, 7))
  {
    var head, zeros := ToolBytes(tool.server, tool.name, tool.index), LittleEndian(0, 7);
    assert LittleEndian(n, 8) == [n] + zeros;
    hide Mixed, LittleEndian, ToolBytes;
    HashFromConcat(0x811c_9dc5, head, [n] + zeros);
    assert ([n] + zeros)[1..] == zeros;
  }

  /** The first 256 attempts at a tool have different hashes: they differ in one byte, and every later step of the
    * hash can be undone. */
  lemma StableHashSpreads(tool: Tool)
    ensures Spreads(StableHash32, tool, 256)
  {
    hide StableHash32, LittleEndian, Mixed, HashFrom, HashOfTool;
    var start, zeros := HashOfTool(tool), LittleEndian(0, 7);
    forall a: nat, b: nat | a < b < 256
      ensures StableHash32(tool.server, tool.name, tool.index, a) != StableHash32(tool.server, tool.name, tool.index, b)
    {
      HashOfAttempt(tool, a);
      HashOfAttempt(tool, b);
      if HashFrom(Mixed(start, a), zeros) == HashFrom(Mixed(start, b), zeros) {
        HashFromIsInjective(Mixed(start, a), Mixed(start, b), zeros);
        MixedIsInjective(start, start, a, b);
      }
    }
  }

  /** The original's own hash names every tool of a refresh of at most 256 tools within 256 attempts. */
  lemma {:induction false} SmallRefreshIsNamed(given: seq<string>, tools: seq<Tool>)
    requires |given| + |tools| <= 256
    ensures NamedAfter(given, tools, StableHash32, 256).Some?
    decreases |tools|
  {
    if tools != [] {
      StableHashSpreads(tools[0]);
      NamesSize(given);
      SpreadFindsName(tools[0], Names(given), StableHash32, 256);
      hide VisibleName, Spreads;
      var name := VisibleName(tools[0], Names(given), StableHash32, 256).value;
      SmallRefreshIsNamed(given + [name], tools[1..]);
    }
  }

  lemma {:induction false} NamesSize(texts: seq<string>)
    ensures |Names(texts)| <= |texts|
  {
    if texts != [] {
      NamesSize(texts[..|texts| - 1]);
      assert Names(texts) == Names(texts[..|texts| - 1]) + {texts[|texts| - 1]};
    }
  }
}
