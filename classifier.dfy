/**
 * Event classifier: the test `_client_del` applies to a connection's
 * assembled bytes (src/usbwatcher.c, lines 93-96).
 *
 * The source compares the buffer size with strlen of each literal and then
 * calls strncmp over exactly that many bytes. StrnEqual models strncmp,
 * including its stop at a NUL byte; Classify is stated as exact byte equality
 * and proved equal to that test, because neither literal contains a NUL.
 */
module Classifier {

  /** The bytes of the C literal USB_PLUGGED, "USB-plugged", without its NUL. */
  const UsbPlugged: seq<bv8> := [0x55, 0x53, 0x42, 0x2D, 0x70, 0x6C, 0x75, 0x67, 0x67, 0x65, 0x64]

  /** The bytes of the C literal USB_UNPLUGGGED, "USB-unplugged", without its NUL. */
  const UsbUnplugged: seq<bv8> := [0x55, 0x53, 0x42, 0x2D, 0x75, 0x6E, 0x70, 0x6C, 0x75, 0x67, 0x67, 0x65, 0x64]

  datatype EventKind = Plugged | Unplugged | Unrecognized

  predicate NoNul(s: seq<bv8>) {
    forall i :: 0 <= i < |s| ==> s[i] != 0
  }

  /**
   * strncmp(s1, s2, n) == 0: the first n bytes agree, where the comparison
   * stops early (and succeeds) after a NUL byte both strings share.
   */
  predicate StrnEqual(s1: seq<bv8>, s2: seq<bv8>, n: nat)
    requires n <= |s1| && n <= |s2|
    decreases n
  {
    n == 0 || (s1[0] == s2[0] && (s1[0] == 0 || StrnEqual(s1[1..], s2[1..], n - 1)))
  }

  /**
   * The condition of line 93 (and 95) for one literal: `strlen(token) == size`
   * and `!strncmp(token, msg, size)`, where the size is that of the buffer.
   * strlen(token) is |token| because a literal here holds no NUL.
   */
  predicate Matches(token: seq<bv8>, msg: seq<bv8>) {
    |token| == |msg| && StrnEqual(token, msg, |msg|)
  }

  /** Without a NUL in the first n bytes of s1, strncmp is prefix equality. */
  lemma {:induction false} StrnEqualIsPrefixEquality(s1: seq<bv8>, s2: seq<bv8>, n: nat)
    requires n <= |s1| && n <= |s2|
    requires NoNul(s1[..n])
    ensures StrnEqual(s1, s2, n) <==> s1[..n] == s2[..n]
  {
    if n > 0 {
      assert s1[0] == s1[..n][0];
      var rest := s1[1..][..n - 1];
      forall i | 0 <= i < n - 1
        ensures rest[i] != 0
      {
        assert rest[i] == s1[..n][i + 1];
      }
      StrnEqualIsPrefixEquality(s1[1..], s2[1..], n - 1);
      assert s1[..n] == [s1[0]] + s1[1..][..n - 1];
      assert s2[..n] == [s2[0]] + s2[1..][..n - 1];
    }
  }

  /** For a NUL-free literal, the length-then-strncmp test is exact equality. */
  lemma MatchesIsEquality(token: seq<bv8>, msg: seq<bv8>)
    requires NoNul(token)
    ensures Matches(token, msg) <==> msg == token
  {
    if |token| == |msg| {
      assert token[..|msg|] == token;
      assert msg[..|msg|] == msg;
      StrnEqualIsPrefixEquality(token, msg, |msg|);
    }
  }

  lemma TokensHaveNoNul()
    ensures NoNul(UsbPlugged) && NoNul(UsbUnplugged)
  {
  }

  /**
   * The classification `_client_del` performs, written as the source tests
   * it: Plugged is tried first, then Unplugged, anything else is ignored.
   */
  function Classify(msg: seq<bv8>): (k: EventKind)
    ensures k == Plugged <==> msg == UsbPlugged
    ensures k == Unplugged <==> msg == UsbUnplugged
    ensures k == Unrecognized <==> msg != UsbPlugged && msg != UsbUnplugged
  {
    TokensHaveNoNul();
    MatchesIsEquality(UsbPlugged, msg);
    MatchesIsEquality(UsbUnplugged, msg);
    if Matches(UsbPlugged, msg) then Plugged
    else if Matches(UsbUnplugged, msg) then Unplugged
    else Unrecognized
  }

  /** Empty, truncated ("USB-plug") and overlong ("USB-plugged!") messages are ignored. */
  lemma NearMissesAreUnrecognized()
    ensures Classify([]) == Unrecognized
    ensures Classify(UsbPlugged[..8]) == Unrecognized
    ensures Classify(UsbPlugged + [0x21]) == Unrecognized
    ensures Classify(UsbUnplugged[..12]) == Unrecognized
    ensures Classify(UsbUnplugged + [0x00]) == Unrecognized
  {
  }
}
