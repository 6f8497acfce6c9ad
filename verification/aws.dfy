/** The cloud-facing data of the application: the instance and function records
    with the defaulting rules applied to what the provider returns, and the
    profile list read from the `~/.aws/config` file's section headers. The
    provider calls themselves are outside the model; their results arrive as
    the raw records below. */
module Aws {
  import opened Common

  /** An EC2 instance as the application shows it. */
  datatype Instance = Instance(
    id: string,
    name: string,
    instanceType: string,
    state: string,
    publicIp: Option<string>,
    privateIp: Option<string>,
    launchTime: Option<int>,          // whole seconds since the epoch
    autoStopScheduled: Option<int>)   // never set by the application

  /** A Lambda function as the application shows it. */
  datatype LambdaFunction = LambdaFunction(
    name: string,
    runtime: string,
    memory: int,
    lastModified: string,
    description: string)

  /** A resource tag as the provider returns it; either part may be missing. */
  datatype Tag = Tag(key: Option<string>, value: Option<string>)

  /** An instance as the provider describes it, every field optional. */
  datatype RawInstance = RawInstance(
    instanceId: Option<string>,
    tags: seq<Tag>,
    instanceType: Option<string>,
    stateName: Option<string>,
    publicIp: Option<string>,
    privateIp: Option<string>,
    launchTime: Option<int>)

  /** A function as the provider lists it, every field optional. */
  datatype RawFunction = RawFunction(
    functionName: Option<string>,
    runtime: Option<string>,
    memorySize: Option<int>,
    lastModified: Option<string>,
    description: Option<string>)

  function GetOr<T>(o: Option<T>, default: T): (r: T)
    ensures o.Some? ==> r == o.value
    ensures o.None? ==> r == default
  {
    match o
    case Some(v) => v
    case None => default
  }

  /** The value of the first tag keyed "Name"; None when there is no such tag
      or when that first tag has no value (later "Name" tags are not consulted). */
  function NameTagValue(tags: seq<Tag>): (r: Option<string>)
    ensures r.Some? <==> exists i :: 0 <= i < |tags| && tags[i].key == Some("Name") && tags[i].value.Some? &&
                                     forall j :: 0 <= j < i ==> tags[j].key != Some("Name")
    ensures r.Some? ==> exists i :: 0 <= i < |tags| && tags[i].value == r
  {
    if |tags| == 0 then None
    else if tags[0].key == Some("Name") then tags[0].value
    else
      var rest := NameTagValue(tags[1..]);
      assert forall i :: 0 < i < |tags| ==> tags[i] == tags[1..][i - 1];
      if rest.Some? then
        ghost var k :| 0 <= k < |tags[1..]| && tags[1..][k].key == Some("Name") && tags[1..][k].value.Some? &&
                        forall j :: 0 <= j < k ==> tags[1..][j].key != Some("Name");
        assert forall j :: 0 <= j < k + 1 ==> tags[j].key != Some("Name");
        rest
      else rest
  }

  /** The defaulting rules applied to each described instance: a missing id is
      "N/A", the name is the "Name" tag's value or else the id, and a missing
      type or state is "unknown". */
  function ConvertInstance(raw: RawInstance): (r: Instance)
    ensures r.id == GetOr(raw.instanceId, "N/A")
    ensures r.name == GetOr(NameTagValue(raw.tags), r.id)
    ensures r.instanceType == GetOr(raw.instanceType, "unknown")
    ensures r.state == GetOr(raw.stateName, "unknown")
    ensures r.publicIp == raw.publicIp && r.privateIp == raw.privateIp && r.launchTime == raw.launchTime
    ensures r.autoStopScheduled == None
  {
    var id := GetOr(raw.instanceId, "N/A");
    Instance(id, GetOr(NameTagValue(raw.tags), id), GetOr(raw.instanceType, "unknown"),
             GetOr(raw.stateName, "unknown"), raw.publicIp, raw.privateIp, raw.launchTime, None)
  }

  /** An instance without any "Name" tag is shown under its id. */
  lemma UntaggedInstanceNamedById(raw: RawInstance)
    requires forall i :: 0 <= i < |raw.tags| ==> raw.tags[i].key != Some("Name")
    ensures ConvertInstance(raw).name == ConvertInstance(raw).id
  {
  }

  /** All reservations' instances, in order. */
  function Flatten<T>(groups: seq<seq<T>>): (r: seq<T>)
  {
    if |groups| == 0 then [] else groups[0] + Flatten(groups[1..])
  }

  /** Every described instance, reservation by reservation, converted. */
  function ListEc2Instances(reservations: seq<seq<RawInstance>>): (r: seq<Instance>)
    ensures |r| == |Flatten(reservations)|
    ensures forall i :: 0 <= i < |r| ==> r[i] == ConvertInstance(Flatten(reservations)[i])
  {
    if |reservations| == 0 then []
    else ConvertAll(reservations[0]) + ListEc2Instances(reservations[1..])
  }

  function ConvertAll(raws: seq<RawInstance>): (r: seq<Instance>)
    ensures |r| == |raws|
    ensures forall i :: 0 <= i < |r| ==> r[i] == ConvertInstance(raws[i])
  {
    seq(|raws|, i requires 0 <= i < |raws| => ConvertInstance(raws[i]))
  }

  /** The defaulting rules applied to each listed function. */
  function ConvertFunction(raw: RawFunction): (r: LambdaFunction)
    ensures r.name == GetOr(raw.functionName, "N/A")
    ensures r.runtime == GetOr(raw.runtime, "N/A")
    ensures r.memory == GetOr(raw.memorySize, 0)
    ensures r.lastModified == GetOr(raw.lastModified, "N/A")
    ensures r.description == GetOr(raw.description, "")
  {
    LambdaFunction(GetOr(raw.functionName, "N/A"), GetOr(raw.runtime, "N/A"), GetOr(raw.memorySize, 0),
                   GetOr(raw.lastModified, "N/A"), GetOr(raw.description, ""))
  }

  function ListLambdaFunctions(raws: seq<RawFunction>): (r: seq<LambdaFunction>)
    ensures |r| == |raws|
    ensures forall i :: 0 <= i < |r| ==> r[i] == ConvertFunction(raws[i])
  {
    seq(|raws|, i requires 0 <= i < |raws| => ConvertFunction(raws[i]))
  }

  const DESCRIBE_FAILED: string := "Failed to describe EC2 instances: "
  const LIST_FUNCTIONS_FAILED: string := "Failed to list Lambda functions: "

  /** `list_ec2_instances`: a successful describe call yields every instance
      it described, converted, and a failed one its error behind a fixed prefix. */
  function Ec2Listing(described: Result<seq<seq<RawInstance>>>): (r: Result<seq<Instance>>)
    ensures r.Ok? <==> described.Ok?
    ensures r.Ok? ==>
      && |r.value| == |Flatten(described.value)|
      && forall i :: 0 <= i < |r.value| ==> r.value[i] == ConvertInstance(Flatten(described.value)[i])
    ensures r.Err? ==>
      && |r.error| == |DESCRIBE_FAILED| + |described.error|
      && r.error[..|DESCRIBE_FAILED|] == DESCRIBE_FAILED && r.error[|DESCRIBE_FAILED|..] == described.error
  {
    match described
    case Ok(reservations) => Ok(ListEc2Instances(reservations))
    case Err(e) => Err(DESCRIBE_FAILED + e)
  }

  /** `list_lambda_functions`: every listed function converted, or the
      error behind a fixed prefix. */
  function LambdaListing(listed: Result<seq<RawFunction>>): (r: Result<seq<LambdaFunction>>)
    ensures r.Ok? <==> listed.Ok?
    ensures r.Ok? ==>
      && |r.value| == |listed.value|
      && forall i :: 0 <= i < |r.value| ==> r.value[i] == ConvertFunction(listed.value[i])
    ensures r.Err? ==>
      && |r.error| == |LIST_FUNCTIONS_FAILED| + |listed.error|
      && r.error[..|LIST_FUNCTIONS_FAILED|] == LIST_FUNCTIONS_FAILED
      && r.error[|LIST_FUNCTIONS_FAILED|..] == listed.error
  {
    match listed
    case Ok(raws) => Ok(ListLambdaFunctions(raws))
    case Err(e) => Err(LIST_FUNCTIONS_FAILED + e)
  }

  // ---------------------------------------------------------------------------
  // Profiles from the config file
  // ---------------------------------------------------------------------------

  /** Unicode White_Space, the set `str::trim` removes. */
  predicate IsWhitespace(c: char)
  {
    ('\U{0009}' <= c <= '\U{000D}') || c == ' ' || c == '\U{0085}' || c == '\U{00A0}' ||
    c == '\U{1680}' || ('\U{2000}' <= c <= '\U{200A}') || c == '\U{2028}' || c == '\U{2029}' ||
    c == '\U{202F}' || c == '\U{205F}' || c == '\U{3000}'
  }

  predicate AllWhitespace(s: string)
  {
    forall i :: 0 <= i < |s| ==> IsWhitespace(s[i])
  }

  function TrimStart(s: string): (r: string)
    ensures |r| <= |s| && r == s[|s| - |r|..]
    ensures AllWhitespace(s[..|s| - |r|])
    ensures |r| > 0 ==> !IsWhitespace(r[0])
  {
    if |s| > 0 && IsWhitespace(s[0]) then TrimStart(s[1..]) else s
  }

  function TrimEnd(s: string): (r: string)
    ensures |r| <= |s| && r == s[..|r|]
    ensures AllWhitespace(s[|r|..])
    ensures |r| > 0 ==> !IsWhitespace(r[|r| - 1])
  {
    if |s| > 0 && IsWhitespace(s[|s| - 1]) then TrimEnd(s[..|s| - 1]) else s
  }

  /** `str::trim`. */
  function Trim(s: string): string
  {
    TrimEnd(TrimStart(s))
  }

  /** Surrounding whitespace is removed and nothing else. */
  lemma {:induction false} TrimSurrounded(ws1: string, core: string, ws2: string)
    requires AllWhitespace(ws1) && AllWhitespace(ws2)
    requires |core| > 0 && !IsWhitespace(core[0]) && !IsWhitespace(core[|core| - 1])
    ensures Trim(ws1 + core + ws2) == core
  {
    TrimStartPrefix(ws1, core + ws2);
    assert ws1 + core + ws2 == ws1 + (core + ws2);
    TrimEndSuffix(core, ws2);
  }

  lemma {:induction false} TrimStartPrefix(ws: string, rest: string)
    requires AllWhitespace(ws)
    requires |rest| > 0 && !IsWhitespace(rest[0])
    ensures TrimStart(ws + rest) == rest
    decreases |ws|
  {
    if |ws| > 0 {
      assert (ws + rest)[1..] == ws[1..] + rest;
      TrimStartPrefix(ws[1..], rest);
    } else {
      assert ws + rest == rest;
    }
  }

  lemma {:induction false} TrimEndSuffix(rest: string, ws: string)
    requires AllWhitespace(ws)
    requires |rest| > 0 && !IsWhitespace(rest[|rest| - 1])
    ensures TrimEnd(rest + ws) == rest
    decreases |ws|
  {
    if |ws| > 0 {
      assert (rest + ws)[..|rest + ws| - 1] == rest + ws[..|ws| - 1];
      TrimEndSuffix(rest, ws[..|ws| - 1]);
    } else {
      assert rest + ws == rest;
    }
  }

  /** `str::trim_start_matches` with a string pattern: removes the prefix as
      many times as it repeats. */
  function TrimStartMatches(s: string, prefix: string): (r: string)
    requires |prefix| > 0
    ensures !StartsWith(r, prefix)
    ensures |r| <= |s| && r == s[|s| - |r|..]
    decreases |s|
  {
    if StartsWith(s, prefix) then TrimStartMatches(s[|prefix|..], prefix) else s
  }

  /** `str::trim_end_matches` with a character: removes every trailing copy. */
  function TrimEndChar(s: string, c: char): (r: string)
    ensures |r| == 0 || r[|r| - 1] != c
    ensures |r| <= |s| && r == s[..|r|]
    ensures forall i :: |r| <= i < |s| ==> s[i] == c
  {
    if |s| > 0 && s[|s| - 1] == c then TrimEndChar(s[..|s| - 1], c) else s
  }

  const PROFILE_PREFIX: string := "[profile "

  /** A trimmed line "[profile NAME]" names profile NAME; "[default]" names
      "default"; no other line names a profile. */
  function ParseProfileLine(line: string): (r: Option<string>)
    ensures r.Some? <==>
      var t := Trim(line);
      (StartsWith(t, PROFILE_PREFIX) && EndsWith(t, "]")) || t == "[default]"
  {
    var t := Trim(line);
    if StartsWith(t, PROFILE_PREFIX) && EndsWith(t, "]") then
      Some(TrimEndChar(TrimStartMatches(t, PROFILE_PREFIX), ']'))
    else if t == "[default]" then Some("default")
    else None
  }

  /** Stripping the header prefix from "[profile NAME]" leaves "NAME]". */
  lemma StripProfilePrefix(name: string)
    requires !StartsWith(name, PROFILE_PREFIX)
    ensures TrimStartMatches(PROFILE_PREFIX + name + "]", PROFILE_PREFIX) == name + "]"
  {
    var core := PROFILE_PREFIX + name + "]";
    assert core[..|PROFILE_PREFIX|] == PROFILE_PREFIX;
    assert core[|PROFILE_PREFIX|..] == name + "]";
    var tail := name + "]";
    if |tail| >= |PROFILE_PREFIX| {
      if |name| >= |PROFILE_PREFIX| {
        assert tail[..|PROFILE_PREFIX|] == name[..|PROFILE_PREFIX|];
      } else {
        assert tail[|PROFILE_PREFIX| - 1] == ']';
      }
    }
    assert !StartsWith(tail, PROFILE_PREFIX);
  }

  /** Stripping trailing brackets from "NAME]" leaves NAME when NAME does not end in one. */
  lemma StripClosingBracket(name: string)
    requires |name| == 0 || name[|name| - 1] != ']'
    ensures TrimEndChar(name + "]", ']') == name
  {
    assert (name + "]")[..|name|] == name;
  }

  /** A header line, possibly indented, yields exactly the name inside it. */
  lemma ProfileHeaderYieldsName(ws1: string, name: string, ws2: string)
    requires AllWhitespace(ws1) && AllWhitespace(ws2)
    requires !StartsWith(name, PROFILE_PREFIX)
    requires |name| == 0 || name[|name| - 1] != ']'
    ensures ParseProfileLine(ws1 + PROFILE_PREFIX + name + "]" + ws2) == Some(name)
  {
    var core := PROFILE_PREFIX + name + "]";
    assert ws1 + PROFILE_PREFIX + name + "]" + ws2 == ws1 + core + ws2;
    TrimSurrounded(ws1, core, ws2);
    assert core[..|PROFILE_PREFIX|] == PROFILE_PREFIX;
    assert core[|core| - 1..] == "]";
    StripProfilePrefix(name);
    StripClosingBracket(name);
  }

  /** A "[default]" line, possibly indented, yields "default". */
  lemma DefaultHeaderYieldsDefault(ws1: string, ws2: string)
    requires AllWhitespace(ws1) && AllWhitespace(ws2)
    ensures ParseProfileLine(ws1 + "[default]" + ws2) == Some("default")
  {
    var t := "[default]";
    TrimSurrounded(ws1, t, ws2);
    assert !StartsWith(t, PROFILE_PREFIX) by {
      assert t[..|PROFILE_PREFIX|][1] != PROFILE_PREFIX[1];
    }
  }

  /** The segments of `s` between newline characters (a trailing '\r' is left
      on the segment; trimming removes it). */
  function SplitLines(s: string): (lines: seq<string>)
    ensures |lines| >= 1
    ensures forall i :: 0 <= i < |lines| ==> '\n' !in lines[i]
  {
    if |s| == 0 then [""]
    else
      var rest := SplitLines(s[1..]);
      if s[0] == '\n' then [""] + rest
      else [[s[0]] + rest[0]] + rest[1..]
  }

  /** Splitting at a newline splits the parts independently. */
  lemma {:induction false} SplitLinesAppend(a: string, b: string)
    ensures SplitLines(a + "\n" + b) == SplitLines(a) + SplitLines(b)
    decreases |a|
  {
    var s := a + "\n" + b;
    if |a| == 0 {
      assert s == "\n" + b;
      assert s[1..] == b;
    } else {
      assert s[1..] == a[1..] + "\n" + b;
      SplitLinesAppend(a[1..], b);
    }
  }

  /** The profiles named by the lines, in line order. */
  function ProfilesFromLines(lines: seq<string>): (r: seq<string>)
    ensures |r| <= |lines|
  {
    if |lines| == 0 then []
    else
      match ParseProfileLine(lines[0])
      case Some(name) => [name] + ProfilesFromLines(lines[1..])
      case None => ProfilesFromLines(lines[1..])
  }

  lemma {:induction false} ProfilesFromLinesAppend(a: seq<string>, b: seq<string>)
    ensures ProfilesFromLines(a + b) == ProfilesFromLines(a) + ProfilesFromLines(b)
    decreases |a|
  {
    if |a| == 0 {
      assert a + b == b;
    } else {
      assert (a + b)[1..] == a[1..] + b;
      ProfilesFromLinesAppend(a[1..], b);
    }
  }

  /** The profile names in the config file; a missing file gives none. */
  function ListAwsProfiles(configFile: Option<string>): (r: seq<string>)
    ensures configFile.None? ==> r == []
  {
    match configFile
    case None => []
    case Some(content) => ProfilesFromLines(SplitLines(content))
  }

  /** The file's profiles are those of its first part followed by those of the
      rest: output order follows file order. */
  lemma ListAwsProfilesAppend(a: string, b: string)
    ensures ListAwsProfiles(Some(a + "\n" + b)) == ListAwsProfiles(Some(a)) + ListAwsProfiles(Some(b))
  {
    SplitLinesAppend(a, b);
    ProfilesFromLinesAppend(SplitLines(a), SplitLines(b));
  }
}
