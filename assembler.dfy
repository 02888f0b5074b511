/**
 * Message assembler: the per-connection buffer `client_data_t {msg, size}`
 * of src/usbwatcher.c (lines 71-75), which `_client_data` grows chunk by chunk.
 * The protocol has no framing: a message is everything received before the
 * connection closes, in arrival order.
 */
module Assembler {

  /** One connection's `client_data_t`: the bytes received so far and their count. */
  datatype ClientBuffer = ClientBuffer(msg: seq<bv8>, size: nat)

  /** The buffer `_client_add` installs: `strdup("")` with size 0. */
  const EmptyBuffer := ClientBuffer([], 0)

  /** The message a connection has assembled after receiving `chunks` in order. */
  function Assemble(chunks: seq<seq<bv8>>): seq<bv8>
    decreases |chunks|
  {
    if chunks == [] then [] else Assemble(chunks[..|chunks| - 1]) + chunks[|chunks| - 1]
  }

  /** Receiving one more chunk appends it to what was assembled before. */
  lemma AssembleSnoc(chunks: seq<seq<bv8>>, chunk: seq<bv8>)
    ensures Assemble(chunks + [chunk]) == Assemble(chunks) + chunk
  {
  }

  /**
   * Delivery in two runs of chunks assembles the same message as the
   * concatenation of the two runs' messages: how a peer splits its writes
   * does not matter, only their order.
   */
  lemma {:induction false} AssembleConcat(a: seq<seq<bv8>>, b: seq<seq<bv8>>)
    ensures Assemble(a + b) == Assemble(a) + Assemble(b)
    decreases |b|
  {
    if b == [] {
      assert a + b == a;
    } else {
      var init, last := b[..|b| - 1], b[|b| - 1];
      assert b == init + [last];
      assert a + b == (a + init) + [last];
      AssembleSnoc(a + init, last);
      AssembleConcat(a, init);
      AssembleSnoc(init, last);
    }
  }

  /** Sending a message in two chunks assembles the same bytes as sending it at once. */
  lemma SplitWritesAssembleAlike(x: seq<bv8>, y: seq<bv8>)
    ensures Assemble([x, y]) == Assemble([x + y])
  {
  }
}
