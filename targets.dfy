/**
 * A target's `host:port` address: the constructor's normalisation and the host and port
 * read back from it.
 */
module Targets {
  import opened Wrappers
  import opened Php

  const DEFAULT_PORT_SUFFIX := ":80"
  const DEFAULT_WEIGHT := 100

  /** The configuration array given to the target constructor; None is a missing key. */
  datatype TargetSpec = TargetSpec(target: Option<string>, weight: Option<int>)

  /**
   * The constructor's normalisation: when `strpos($target, ':')` is falsy (no colon, or a
   * colon at index 0), ":80" is appended. A missing target reads as null, that is "".
   */
  function NormaliseTarget(raw: Option<string>): (t: string)
    ensures ':' in t
    ensures t != ""
    ensures raw.GetOr("") <= t
    ensures t == raw.GetOr("") || t == raw.GetOr("") + DEFAULT_PORT_SUFFIX
    ensures t == raw.GetOr("") + DEFAULT_PORT_SUFFIX <==>
      (':' !in raw.GetOr("") || raw.GetOr("")[0] == ':')
    ensures t == raw.GetOr("") <==> (':' in raw.GetOr("") && raw.GetOr("")[0] != ':')
  {
    var s := raw.GetOr("");
    var pos := IndexOf(s, ':');
    if pos.None? || pos.value == 0 then
      assert (s + DEFAULT_PORT_SUFFIX)[|s|] == ':';
      s + DEFAULT_PORT_SUFFIX
    else s
  }

  /** `getHost`: the first piece of `explode(':', target)`. */
  function HostOf(t: string): (host: string) {
    Split(t, ':')[0]
  }

  /**
   * `getPort`: `intval` of the second piece of `explode(':', target)`; a target without a
   * second piece yields null, whose `intval` is 0.
   */
  function PortOf(t: string): (port: int) {
    var parts := Split(t, ':');
    if |parts| >= 2 then IntVal(parts[1]) else 0
  }

  /** The host is the text before the first colon, and the port the `intval` of the text after it up to the next colon. */
  lemma HostAndPortAroundFirstColon(t: string, k: nat)
    requires IndexOf(t, ':') == Some(k)
    ensures HostOf(t) == t[..k]
    ensures PortOf(t) == IntVal(HostOf(t[k + 1..]))
  {
    var tail := Split(t[k + 1..], ':');
    assert Split(t, ':') == [t[..k]] + tail;
    assert HostOf(t[k + 1..]) == tail[0];
  }

  /** A colon-free input gets the default port 80 and is its own host. */
  lemma {:induction false} ColonFreeTargetGetsPort80(h: string)
    requires ':' !in h
    ensures NormaliseTarget(Some(h)) == h + DEFAULT_PORT_SUFFIX
    ensures HostOf(NormaliseTarget(Some(h))) == h
    ensures PortOf(NormaliseTarget(Some(h))) == 80
  {
    var t := h + DEFAULT_PORT_SUFFIX;
    assert t[..|h|] == h;
    IndexOfUnique(t, ':', |h|);
    assert t[|h| + 1..] == "80";
    assert IndexOf("80", ':') == None;
    assert Split(t, ':') == [h, "80"];
    IntValOfDigits("80");
    assert "80"[..1] == "8";
  }

  /**
   * For `h:p` with a non-empty colon-free host and a port of digits, the address is kept
   * as given, and host and port recombine to it.
   */
  lemma {:induction false} HostPortRoundTrip(h: string, p: string)
    requires h != "" && ':' !in h && AllDigits(p)
    ensures NormaliseTarget(Some(h + ":" + p)) == h + ":" + p
    ensures HostOf(h + ":" + p) == h
    ensures HostOf(h + ":" + p) + ":" + p == NormaliseTarget(Some(h + ":" + p))
    ensures PortOf(h + ":" + p) == DigitsValue(p)
  {
    var t := h + ":" + p;
    assert t[..|h|] == h;
    IndexOfUnique(t, ':', |h|);
    assert t[|h| + 1..] == p;
    assert Split(t, ':') == [h, p];
    IntValOfDigits(p);
  }

  /** For `h:p` whose port text does not start like a number, the port is 0. */
  lemma {:induction false} PortOfNonNumeric(h: string, p: string)
    requires ':' !in h && ':' !in p
    requires p == [] || !(IsDigit(p[0]) || IsSpace(p[0]) || p[0] == '+' || p[0] == '-')
    ensures PortOf(h + ":" + p) == 0
  {
    var t := h + ":" + p;
    assert t[..|h|] == h;
    IndexOfUnique(t, ':', |h|);
    assert t[|h| + 1..] == p;
    assert Split(t, ':') == [h, p];
    IntValNonNumeric(p);
  }

  /** A leading colon does not count as a port separator: ":80" is appended and the host is empty. */
  lemma LeadingColonTarget(rest: string)
    ensures NormaliseTarget(Some(":" + rest)) == ":" + rest + DEFAULT_PORT_SUFFIX
    ensures HostOf(NormaliseTarget(Some(":" + rest))) == ""
  {
    assert IndexOf(":" + rest, ':') == Some(0);
    var t := ":" + rest + DEFAULT_PORT_SUFFIX;
    assert t[0] == ':';
    IndexOfUnique(t, ':', 0);
  }

  /** A missing target normalises to ":80", so the constructor's emptiness check never fires. */
  lemma MissingTargetIsDefaultPort()
    ensures NormaliseTarget(None) == DEFAULT_PORT_SUFFIX
    ensures HostOf(DEFAULT_PORT_SUFFIX) == ""
  {
    assert IndexOf("", ':') == None;
    IndexOfUnique(DEFAULT_PORT_SUFFIX, ':', 0);
  }
}
