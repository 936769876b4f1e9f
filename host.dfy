/**
 * The host decoder: from a `Host` header of the form
 * `<port>-<sandboxId>.<base-domain>[:<listener-port>]` to the pair it names.
 */
module HostRouting {
  import opened GoStrings
  import opened Validation
  import opened Wrappers

  /** The pair `(sandboxId, port)` a host names. */
  datatype HostKey = HostKey(sandboxId: string, port: string)

  /** What the decoder returns when the host names no pair. */
  const NO_KEY := HostKey("", "")

  /** The first `.`-separated label of the host once everything from the first `:` on is dropped. */
  function FirstLabel(host: string): string {
    Before(Before(host, ':'), '.')
  }

  /**
   * `getSandboxIdAndPortFromUrl`. On a first label that has a `-`, the port is
   * the text before the first `-` and the sandbox ID everything after it, so
   * the two re-assemble the label; on a label without `-` (an empty host
   * included) both parts are empty.
   */
  function Decode(host: string): (k: HostKey)
    ensures '-' !in FirstLabel(host) ==> k == NO_KEY
    ensures '-' in FirstLabel(host) ==> k.port + "-" + k.sandboxId == FirstLabel(host) && '-' !in k.port
  {
    var colon := IndexOf(host, ':');
    BeforeIndexOf(host, ':');
    var h := if colon != -1 then host[..colon] else host;
    var parts := Split(h, '.');
    if |parts| < 1 then NO_KEY
    else
      var sub := SplitN2(parts[0], '-');
      if |sub| != 2 then NO_KEY else HostKey(sub[1], sub[0])
  }

  /** The decoder is a function of the first label alone. */
  lemma DecodeByLabel(h1: string, h2: string)
    requires FirstLabel(h1) == FirstLabel(h2)
    ensures Decode(h1) == Decode(h2)
  {
    var first := FirstLabel(h1);
    if '-' in first {
      var k1, k2 := Decode(h1), Decode(h2);
      SeparatedUnique(k1.port, k1.sandboxId, k2.port, k2.sandboxId, '-');
    }
  }

  /** Whatever follows the first `:` (a listener port, or anything else) does not affect the decoded pair. */
  lemma DecodeIgnoresAfterColon(host: string, rest: string)
    requires ':' !in host
    ensures Decode(host + [':'] + rest) == Decode(host)
  {
    var tail := [':'] + rest;
    BeforeAppend(host, tail, ':');
    assert Before(tail, ':') == [];
    assert host + [':'] + rest == host + tail;
    assert Before(host + tail, ':') == Before(host, ':');
    DecodeByLabel(host + tail, host);
  }

  /** Nothing from the first `.` on affects the decoded pair either. */
  lemma DecodeIgnoresDomain(first: string, rest: string)
    requires '.' !in first && ':' !in first
    ensures Decode(first + "." + rest) == Decode(first)
  {
    var host := first + ("." + rest);
    assert first + "." + rest == host;
    BeforeAppend(first, "." + rest, ':');
    BeforeAppend(first, Before("." + rest, ':'), '.');
    DecodeByLabel(host, first);
  }

  /**
   * Decoding inverts the host grammar: a validated pair written as
   * `<port>-<sandboxId>` and followed by nothing, by a domain (`.…`) or by a
   * listener port (`:…`) decodes back to itself. The sandbox ID may contain
   * `-`: only the first `-` of the label separates the two parts.
   */
  lemma DecodeEncode(sandboxId: string, port: string, rest: string)
    requires ValidateInputs(sandboxId, port) == Pass
    requires rest == "" || rest[0] == '.' || rest[0] == ':'
    ensures Decode(port + "-" + sandboxId + rest) == HostKey(sandboxId, port)
  {
    AcceptedHasNoSeparators(sandboxId, port);
    var first := port + "-" + sandboxId;
    assert '.' !in first && ':' !in first by {
      assert forall c :: c in first ==> c in port || c == '-' || c in sandboxId;
    }
    var host := first + rest;
    BeforeAppend(first, rest, ':');
    BeforeAppend(first, Before(rest, ':'), '.');
    assert FirstLabel(host) == first;
    var k := Decode(host);
    assert '-' in first by { assert first[|port|] == '-'; }
    SeparatedUnique(k.port, k.sandboxId, port, sandboxId, '-');
  }

  /**
   * Conversely, every host the validator accepts after decoding has that
   * shape: it starts with `<port>-<sandboxId>` and continues, if at all,
   * with `.` or `:`.
   */
  lemma AcceptedHostShape(host: string)
    ensures var k := Decode(host); var first := k.port + "-" + k.sandboxId;
      ValidateInputs(k.sandboxId, k.port) == Pass ==>
        && first <= host
        && (|host| == |first| || host[|first|] == '.' || host[|first|] == ':')
  {
    var k := Decode(host);
    if ValidateInputs(k.sandboxId, k.port) == Pass {
      var h := Before(host, ':');
      var first := Before(h, '.');
      assert k != NO_KEY;
      assert k.port + "-" + k.sandboxId == first;
      if |first| < |h| {
        assert h[|first|] == '.';
        assert host[|first|] == h[|first|];
      } else if |first| < |host| {
        assert first == h;
        assert host[|h|] == ':';
      }
    }
  }

  /**
   * A first label without `-` names no pair, whatever follows it after a `.`
   * or a `:`; neither does the empty host.
   */
  lemma DecodeNoDash(first: string, rest: string)
    requires '-' !in first && '.' !in first && ':' !in first
    requires rest == "" || rest[0] == '.' || rest[0] == ':'
    ensures Decode(first + rest) == NO_KEY
    ensures Decode("") == NO_KEY
  {
    BeforeAppend(first, rest, ':');
    BeforeAppend(first, Before(rest, ':'), '.');
  }
}
