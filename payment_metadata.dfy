/** The Metadata string of a checkout payment (internal/services/stripe_service.go): written with a
    format string that splices the robot name and plan type into a JSON object without escaping,
    and read back by the completed handler as a JSON object whose robot_name must be a string. */
module PaymentMetadata {
  import opened Base

  const NamePrefix: string := "{\"robot_name\":\""
  const PlanInfix: string := "\",\"plan_type\":\""
  const Suffix: string := "\"}"

  /** A string that a JSON string literal holds verbatim: no quote, no backslash, no control
      character. */
  predicate JsonSafe(s: string) {
    forall i :: 0 <= i < |s| ==> s[i] != '"' && s[i] != '\\' && s[i] >= ' '
  }

  /** The format string `{"robot_name":"%s","plan_type":"%s"}`. */
  function FormatMetadata(robotName: string, planType: string): (m: string)
    ensures |m| == |NamePrefix| + |robotName| + |PlanInfix| + |planType| + |Suffix|
  {
    NamePrefix + robotName + PlanInfix + planType + Suffix
  }

  /** Index of the first quote in s, |s| when there is none. */
  function QuoteIndex(s: string): (k: nat)
    ensures k <= |s|
    ensures forall i :: 0 <= i < k ==> s[i] != '"'
    ensures k < |s| ==> s[k] == '"'
  {
    if |s| == 0 || s[0] == '"' then 0 else 1 + QuoteIndex(s[1..])
  }

  /** The quote search stops at the first quote after a quote-free prefix. */
  lemma {:induction false} QuoteIndexAfterSafe(name: string, rest: string)
    requires JsonSafe(name)
    requires |rest| > 0 && rest[0] == '"'
    ensures QuoteIndex(name + rest) == |name|
  {
    if |name| > 0 {
      assert (name + rest)[1..] == name[1..] + rest;
      QuoteIndexAfterSafe(name[1..], rest);
    } else {
      assert name + rest == rest;
    }
  }

  /** The robot_name the completed handler reads from metadata, for metadata of exactly the shape
      the checkout writes with JSON-safe values; None (a decoding failure or a missing string
      robot_name) otherwise. */
  function DecodeRobotName(m: string): (r: Option<string>)
  {
    if !HasPrefix(m, NamePrefix) then None
    else
      var rest := m[|NamePrefix|..];
      var k := QuoteIndex(rest);
      var name := rest[..k];
      var tail := rest[k..];
      if && HasPrefix(tail, PlanInfix)
         && |tail| >= |PlanInfix| + |Suffix|
         && tail[|tail| - |Suffix|..] == Suffix
         && JsonSafe(name)
         && JsonSafe(tail[|PlanInfix|..|tail| - |Suffix|])
      then Some(name)
      else None
  }

  /** Round trip: the name written at checkout is the name read back, for JSON-safe values. */
  lemma DecodeFormat(robotName: string, planType: string)
    requires JsonSafe(robotName) && JsonSafe(planType)
    ensures DecodeRobotName(FormatMetadata(robotName, planType)) == Some(robotName)
  {
    var m := FormatMetadata(robotName, planType);
    var after := PlanInfix + planType + Suffix;
    assert m == NamePrefix + (robotName + after);
    assert HasPrefix(m, NamePrefix);
    var rest := m[|NamePrefix|..];
    assert rest == robotName + after;
    QuoteIndexAfterSafe(robotName, after);
    assert rest[..|robotName|] == robotName;
    var tail := rest[|robotName|..];
    assert tail == after;
    assert tail[..|PlanInfix|] == PlanInfix;
    assert tail[|tail| - |Suffix|..] == Suffix;
    assert tail[|PlanInfix|..|tail| - |Suffix|] == planType;
  }

  /** A string with a prefix is that prefix followed by the rest. */
  lemma SplitPrefix(s: string, p: string)
    requires HasPrefix(s, p)
    ensures s == p + s[|p|..]
  {
    assert s == s[..|p|] + s[|p|..];
  }

  /** A string with a prefix p and a suffix q, long enough for both, is p, the middle, then q. */
  lemma SplitAround(s: string, p: string, q: string)
    requires HasPrefix(s, p) && |s| >= |p| + |q| && s[|s| - |q|..] == q
    ensures s == p + s[|p|..|s| - |q|] + q
  {
    SplitPrefix(s, p);
    var rest := s[|p|..];
    assert rest == rest[..|rest| - |q|] + rest[|rest| - |q|..];
    assert rest[..|rest| - |q|] == s[|p|..|s| - |q|];
    assert rest[|rest| - |q|..] == q;
  }

  /** Converse: whatever name is read back came from metadata of the checkout's shape with
      JSON-safe values. */
  lemma DecodedIsFormatted(m: string)
    requires DecodeRobotName(m).Some?
    ensures JsonSafe(DecodeRobotName(m).value)
    ensures exists planType :: JsonSafe(planType) && m == FormatMetadata(DecodeRobotName(m).value, planType)
  {
    var rest := m[|NamePrefix|..];
    var k := QuoteIndex(rest);
    var name := rest[..k];
    var tail := rest[k..];
    var planType := tail[|PlanInfix|..|tail| - |Suffix|];
    SplitPrefix(m, NamePrefix);
    SplitAround(tail, PlanInfix, Suffix);
    assert rest == name + tail;
    Reassemble(m, rest, name, tail, planType);
  }

  /** The three splits of DecodeRobotName put back together give the format string. */
  lemma Reassemble(m: string, rest: string, name: string, tail: string, planType: string)
    requires m == NamePrefix + rest && rest == name + tail && tail == PlanInfix + planType + Suffix
    ensures m == FormatMetadata(name, planType)
  {
  }

  /** The converse of the round trip, over every name: a name holding a quote, a backslash or a
      control character, spliced in by the format string, is read back by this decoder as no name,
      whatever the plan type. */
  lemma UnsafeNameIsLost(robotName: string, planType: string)
    requires !JsonSafe(robotName)
    ensures DecodeRobotName(FormatMetadata(robotName, planType)) == None
  {
    var m := FormatMetadata(robotName, planType);
    assert m == NamePrefix + (robotName + (PlanInfix + planType + Suffix));
    SplitPrefix(m, NamePrefix);
    UnsafeRestRejected(robotName, planType, m[|NamePrefix|..]);
  }

  /** The text after the name prefix, for an unsafe name, fails the decoder's shape test. With a
      quote in the name, the text after that quote cannot be followed by a quote-free plan type;
      without one, the name read back is the unsafe name itself. */
  lemma UnsafeRestRejected(robotName: string, planType: string, rest: string)
    requires !JsonSafe(robotName)
    requires rest == robotName + (PlanInfix + planType + Suffix)
    ensures var k := QuoteIndex(rest);
      var tail := rest[k..];
      !(&& HasPrefix(tail, PlanInfix)
        && |tail| >= |PlanInfix| + |Suffix|
        && JsonSafe(rest[..k])
        && JsonSafe(tail[|PlanInfix|..|tail| - |Suffix|]))
  {
    assert rest[|robotName|] == '"';
    var k := QuoteIndex(rest);
    if k < |robotName| {
      QuoteInNameRejected(robotName, planType, rest, k);
    } else {
      assert rest[..k] == robotName;
      assert !JsonSafe(rest[..k]);
    }
  }

  /** When the decoder's first quote falls inside the name, the plan-type slot it then reads
      contains the quote that opens the format's plan-type key. */
  lemma QuoteInNameRejected(robotName: string, planType: string, rest: string, k: nat)
    requires rest == robotName + (PlanInfix + planType + Suffix)
    requires k < |robotName|
    ensures var tail := rest[k..];
      HasPrefix(tail, PlanInfix) && |tail| >= |PlanInfix| + |Suffix| ==>
        !JsonSafe(tail[|PlanInfix|..|tail| - |Suffix|])
  {
    var tail := rest[k..];
    if HasPrefix(tail, PlanInfix) && |tail| >= |PlanInfix| + |Suffix| {
      var j := |robotName| - k - 1;
      assert tail[|PlanInfix|..|tail| - |Suffix|][j] == rest[|robotName| + |PlanInfix| - 1] == '"';
    }
  }
}
