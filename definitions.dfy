/**
 * The record and string builders of src/service-consul.mjs: the registration record built by
 * the `serviceDefinition` getter, the `asSeconds` duration formatter inside it, and the tag list
 * computed by `updateTags`.
 */
module Definitions {
  import opened Wrappers

  /** The service name every instance registers under. */
  const ServiceName: string := "kronos"

  /** Defaults of the `checkPath`, `checkInterval` and `checkTimeout` attributes. */
  const DefaultCheckPath: string := "/check"
  const DefaultCheckInterval: Duration := NumberValue(10)
  const DefaultCheckTimeout: Duration := NumberValue(5)

  /** The prefix `updateTags` puts in front of each step name. */
  const StepPrefix: string := "step:"

  /**
   * A configured duration: a number, a primitive string, or a `String` object (the only kind
   * of value for which `value instanceof String` holds).
   */
  datatype Duration = NumberValue(n: int) | StringValue(s: string) | StringObject(s: string)

  /** The `koa-admin` listener the service is reached through. */
  datatype Listener = Listener(url: string, address: string, port: int)

  datatype Check = Check(id: string, http: string, interval: string, timeout: string)

  /** The record passed to `agent.service.register`. */
  datatype Definition = Definition(
    name: string, id: string, port: int, address: string, tags: seq<string>, check: Check)

  // ---------------------------------------------------------------------------
  // Decimal rendering of numbers, as in the template literal `${value}`.

  predicate IsDigit(c: char) {
    '0' <= c <= '9'
  }

  predicate AllDigits(s: string) {
    forall i | 0 <= i < |s| :: IsDigit(s[i])
  }

  function DigitChar(d: nat): (c: char)
    requires d < 10
    ensures IsDigit(c) && (c as int) - ('0' as int) == d
  {
    "0123456789"[d]
  }

  /** The decimal digits of `n`, most significant first, without leading zeros. */
  function NatToString(n: nat): (r: string)
    ensures |r| > 0 && AllDigits(r)
    ensures |r| > 1 ==> r[0] != '0'
    decreases n
  {
    if n < 10 then [DigitChar(n)] else NatToString(n / 10) + [DigitChar(n % 10)]
  }

  /** The number a string of decimal digits denotes: the partner of `NatToString`. */
  function DecimalValue(s: string): nat
    requires AllDigits(s)
    decreases |s|
  {
    if s == [] then 0
    else DecimalValue(s[..|s| - 1]) * 10 + ((s[|s| - 1] as int) - ('0' as int))
  }

  /** Rendering a number and reading it back gives the number. */
  lemma {:induction false} NatToStringRoundTrip(n: nat)
    ensures DecimalValue(NatToString(n)) == n
    decreases n
  {
    if n >= 10 {
      NatToStringRoundTrip(n / 10);
      var s := NatToString(n);
      assert s[..|s| - 1] == NatToString(n / 10);
    }
  }

  /** `${n}` for an integer `n`: reading the digits back (after the sign) gives `n`. */
  function IntToString(n: int): (r: string)
    ensures n >= 0 ==> AllDigits(r) && DecimalValue(r) == n
    ensures n < 0 ==> |r| > 1 && r[0] == '-' && AllDigits(r[1..]) && DecimalValue(r[1..]) == -n
    ensures n >= 0 ==> r == NatToString(n)
    ensures n < 0 ==> r == "-" + NatToString(-n)
  {
    if n < 0 then
      NatToStringRoundTrip(-n);
      assert ("-" + NatToString(-n))[1..] == NatToString(-n);
      "-" + NatToString(-n)
    else
      NatToStringRoundTrip(n);
      NatToString(n)
  }

  predicate EndsWithS(s: string) {
    |s| > 0 && s[|s| - 1] == 's'
  }

  // ---------------------------------------------------------------------------
  // asSeconds

  /**
   * `asSeconds` as written. A primitive string is not `instanceof String`, so it always gets a
   * second "s"; for a `String` object the test calls `value.matches`, which does not exist on
   * strings, and throws a TypeError.
   */
  function AsSecondsAsWritten(v: Duration): (r: Result<string, JsError>)
    ensures r.Success? <==> !v.StringObject?
    ensures r.Success? ==> EndsWithS(r.value)
    ensures v.StringValue? ==> |r.value| == |v.s| + 1 && r.value[..|v.s|] == v.s
    ensures v.NumberValue? ==> r == Success(IntToString(v.n) + "s")
    ensures v.StringValue? ==> r == Success(v.s + "s")
    ensures v.StringObject? ==> r == Failure(TypeError)
  {
    match v
    case NumberValue(n) => Success(IntToString(n) + "s")
    case StringValue(s) => Success(s + "s")
    case StringObject(_) => Failure(TypeError)
  }

  /** As written, a duration already given in seconds gets its suffix doubled. */
  lemma AsSecondsAsWrittenDoublesSuffix()
    ensures AsSecondsAsWritten(StringValue("10s")) == Success("10ss")
    ensures AsSecondsAsWritten(StringObject("10s")) == Failure(TypeError)
  {
    assert "10s" + "s" == "10ss";
  }

  /**
   * `asSeconds` as evidently intended: a string that already ends in "s" is kept, anything
   * else gets "s" appended.
   */
  function AsSeconds(v: Duration): (r: string)
    ensures EndsWithS(r)
    ensures v.NumberValue? ==> r == IntToString(v.n) + "s"
    ensures !v.NumberValue? ==> r == if EndsWithS(v.s) then v.s else v.s + "s"
  {
    match v
    case NumberValue(n) => IntToString(n) + "s"
    case StringValue(s) => if EndsWithS(s) then s else s + "s"
    case StringObject(s) => if EndsWithS(s) then s else s + "s"
  }

  /** Formatting is idempotent, and for numbers it agrees with the code as written. */
  lemma AsSecondsIdempotent(v: Duration)
    ensures AsSeconds(StringValue(AsSeconds(v))) == AsSeconds(v)
    ensures AsSeconds(StringObject(AsSeconds(v))) == AsSeconds(v)
    ensures v.NumberValue? ==> AsSecondsAsWritten(v) == Success(AsSeconds(v))
  {
  }

  /** The default interval and timeout become "10s" and "5s". */
  lemma DefaultDurations()
    ensures AsSeconds(DefaultCheckInterval) == "10s"
    ensures AsSeconds(DefaultCheckTimeout) == "5s"
  {
    assert NatToString(10) == NatToString(1) + ['0'];
  }

  // ---------------------------------------------------------------------------
  // serviceDefinition and updateTags

  /** The `serviceDefinition` getter. */
  function ServiceDefinition(
    ownerId: string, listener: Listener, tags: seq<string>,
    checkPath: string, checkInterval: Duration, checkTimeout: Duration): (d: Definition)
    ensures d.name == ServiceName && d.id == ownerId && d.tags == tags
    ensures d.port == listener.port && d.address == listener.address
    ensures d.check.id == d.check.http == listener.url + checkPath
    ensures d.check.interval == AsSeconds(checkInterval) && EndsWithS(d.check.interval)
    ensures d.check.timeout == AsSeconds(checkTimeout) && EndsWithS(d.check.timeout)
  {
    Definition(ServiceName, ownerId, listener.port, listener.address, tags,
      Check(listener.url + checkPath, listener.url + checkPath,
            AsSeconds(checkInterval), AsSeconds(checkTimeout)))
  }

  /**
   * The `serviceDefinition` getter as written, with `asSeconds` as written: it throws when a
   * duration is a `String` object, and otherwise differs from the intended record only in a
   * string duration, which gets a second "s".
   */
  function ServiceDefinitionAsWritten(
    ownerId: string, listener: Listener, tags: seq<string>,
    checkPath: string, checkInterval: Duration, checkTimeout: Duration): (r: Result<Definition, JsError>)
    ensures r.Success? <==> !checkInterval.StringObject? && !checkTimeout.StringObject?
    ensures r.Success? ==>
      var d := ServiceDefinition(ownerId, listener, tags, checkPath, checkInterval, checkTimeout);
      r.value.check.interval == AsSecondsAsWritten(checkInterval).value &&
      r.value.check.timeout == AsSecondsAsWritten(checkTimeout).value &&
      r.value == d.(check := d.check.(interval := r.value.check.interval, timeout := r.value.check.timeout))
  {
    match AsSecondsAsWritten(checkInterval)
    case Failure(e) => Failure(e)
    case Success(interval) =>
      match AsSecondsAsWritten(checkTimeout)
      case Failure(e) => Failure(e)
      case Success(timeout) =>
        Success(Definition(ServiceName, ownerId, listener.port, listener.address, tags,
          Check(listener.url + checkPath, listener.url + checkPath, interval, timeout)))
  }

  /** With numeric durations (the defaults among them) the getter as written gives the intended record. */
  lemma ServiceDefinitionAsWrittenOnNumbers(
    ownerId: string, listener: Listener, tags: seq<string>,
    checkPath: string, checkInterval: Duration, checkTimeout: Duration)
    requires checkInterval.NumberValue? && checkTimeout.NumberValue?
    ensures ServiceDefinitionAsWritten(ownerId, listener, tags, checkPath, checkInterval, checkTimeout) ==
            Success(ServiceDefinition(ownerId, listener, tags, checkPath, checkInterval, checkTimeout))
  {
    AsSecondsIdempotent(checkInterval);
    AsSecondsIdempotent(checkTimeout);
  }

  /** As written, an interval of "10s" is registered as "10ss", and a `String` object throws. */
  lemma ServiceDefinitionAsWrittenDoublesSuffix(ownerId: string, listener: Listener, tags: seq<string>)
    ensures var r := ServiceDefinitionAsWritten(ownerId, listener, tags, DefaultCheckPath,
                                                StringValue("10s"), DefaultCheckTimeout);
      r.Success? && r.value.check.interval == "10ss" &&
      ServiceDefinition(ownerId, listener, tags, DefaultCheckPath,
                        StringValue("10s"), DefaultCheckTimeout).check.interval == "10s"
    ensures ServiceDefinitionAsWritten(ownerId, listener, tags, DefaultCheckPath,
                                       StringObject("10s"), DefaultCheckTimeout) == Failure(TypeError)
  {
    AsSecondsAsWrittenDoublesSuffix();
  }

  /** Two listeners with different URLs get different check ids for the same check path. */
  lemma CheckIdsDistinguishListeners(
    ownerId: string, l1: Listener, l2: Listener, tags: seq<string>,
    checkPath: string, checkInterval: Duration, checkTimeout: Duration)
    requires l1.url != l2.url
    ensures ServiceDefinition(ownerId, l1, tags, checkPath, checkInterval, checkTimeout).check.id !=
            ServiceDefinition(ownerId, l2, tags, checkPath, checkInterval, checkTimeout).check.id
  {
    var a, b := l1.url + checkPath, l2.url + checkPath;
    assert a[..|l1.url|] == l1.url && b[..|l2.url|] == l2.url;
  }

  /** The tags `updateTags` assigns: one `step:<name>` per step name, in key order. */
  function StepTags(names: seq<string>): (tags: seq<string>)
    ensures |tags| == |names|
    ensures forall i | 0 <= i < |names| :: tags[i] == StepPrefix + names[i]
    decreases |names|
  {
    if names == [] then [] else [StepPrefix + names[0]] + StepTags(names[1..])
  }

  predicate HasStepPrefix(tag: string) {
    |StepPrefix| <= |tag| && tag[..|StepPrefix|] == StepPrefix
  }

  /** The step names behind a list of tags: the partner of `StepTags`. */
  function StepNames(tags: seq<string>): (names: seq<string>)
    ensures |names| == |tags|
    decreases |tags|
  {
    if tags == [] then []
    else [if HasStepPrefix(tags[0]) then tags[0][|StepPrefix|..] else tags[0]] + StepNames(tags[1..])
  }

  /** Every computed tag carries the prefix, and stripping it gives back the step names. */
  lemma {:induction false} StepTagsRoundTrip(names: seq<string>)
    ensures forall i | 0 <= i < |names| :: HasStepPrefix(StepTags(names)[i])
    ensures StepNames(StepTags(names)) == names
    decreases |names|
  {
    if names != [] {
      var t := StepPrefix + names[0];
      assert t[..|StepPrefix|] == StepPrefix && t[|StepPrefix|..] == names[0];
      StepTagsRoundTrip(names[1..]);
      assert StepTags(names)[1..] == StepTags(names[1..]);
    }
  }

  /** The tags of the steps a, b and c. */
  lemma StepTagsOfSteps()
    ensures StepTags(["a", "b"]) == ["step:a", "step:b"]
    ensures StepTags(["a", "b", "c"]) == ["step:a", "step:b", "step:c"]
  {
    assert StepPrefix + "a" == "step:a" && StepPrefix + "b" == "step:b" && StepPrefix + "c" == "step:c";
  }
}
