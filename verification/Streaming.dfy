/** Cancellation, and reading a file chunk by chunk with whatever chunking the system chooses. */
module Streaming {
  import opened Text
  import opened Jobs
  import opened CopyProtocol

  /** A cancellable context: the first cancellation wins and is never undone. */
  class Context {
    var cause: Option<Cause>

    constructor ()
      ensures cause.None?
    {
      cause := None;
    }

    /** ctx.Err() != nil. Other goroutines may cancel at any moment before the answer. */
    method Cancelled() returns (yes: bool)
      modifies this
      ensures old(cause).Some? ==> cause == old(cause)
      ensures yes == cause.Some?
    {
      if cause.None? {
        var c: Option<Cause> := *;
        cause := c;
      }
      yes := cause.Some?;
    }
  }

  datatype End = More | Eof | Fail

  /** One answer of Read: the bytes delivered, and whether an error or EOF came with them. */
  datatype Chunk = Chunk(data: Bytes, end: End)

  /** The bytes a sequence of reads delivers, up to the first EOF or error. */
  function Delivered(script: seq<Chunk>): Bytes {
    if script == [] then []
    else if script[0].end.More? then script[0].data + Delivered(script[1..])
    else script[0].data
  }

  /** The reads get to EOF. */
  predicate Complete(script: seq<Chunk>) {
    script != [] && (script[0].end.Eof? || (script[0].end.More? && Complete(script[1..])))
  }

  /** The reads are reads of `content`: any chunking, possibly cut short by an error. */
  predicate Reads(script: seq<Chunk>, content: Bytes) {
    Delivered(script) <= content && (Complete(script) ==> Delivered(script) == content)
  }

  /** `got` has been read, `rest` is still to come of the reads `whole`. */
  predicate Streamed(got: Bytes, rest: seq<Chunk>, whole: seq<Chunk>) {
    got + Delivered(rest) == Delivered(whole) && (Complete(rest) <==> Complete(whole))
  }

  lemma StreamStep(got: Bytes, rest: seq<Chunk>, whole: seq<Chunk>)
    requires Streamed(got, rest, whole) && rest != []
    ensures got + rest[0].data <= Delivered(whole)
    ensures rest[0].end.More? ==> Streamed(got + rest[0].data, rest[1..], whole)
    ensures rest[0].end.Eof? ==> got + rest[0].data == Delivered(whole) && Complete(whole)
  {
    if rest[0].end.More? {
      assert got + (rest[0].data + Delivered(rest[1..])) == (got + rest[0].data) + Delivered(rest[1..]);
    }
  }

  class Reader {
    var script: seq<Chunk>

    /** Opens a file holding `content`; how the reads will go is not the caller's choice, except
        that none fails if `smooth`. */
    constructor (content: Bytes, smooth: bool)
      ensures Reads(script, content) && (smooth ==> Complete(script))
    {
      var s: seq<Chunk> := *;
      script := if Reads(s, content) && (smooth ==> Complete(s)) then s
                else if smooth then [Chunk(content, Eof)] else [];
    }

    method Read() returns (c: Chunk)
      modifies this
      ensures old(script) == [] ==> script == [] && c == Chunk([], Fail)
      ensures old(script) != [] ==> c == old(script)[0] && script == old(script)[1..]
    {
      if script == [] {
        return Chunk([], Fail);
      }
      c := script[0];
      script := script[1..];
    }
  }

  /** Hash of a whole file, read in chunks: the hash of the bytes, however they were chunked. There is
      none only if a read failed or the job was cancelled. */
  method HashFile(h: Bytes -> Hash, ctx: Context, content: Bytes, smooth: bool) returns (sum: Option<Hash>)
    modifies ctx
    ensures sum.Some? ==> sum.value == h(content)
    ensures smooth && ctx.cause.None? ==> sum.Some?
    ensures old(ctx.cause).Some? ==> ctx.cause == old(ctx.cause)
  {
    var isOpen: bool := *;
    if !isOpen && !smooth {
      return None;
    }
    var r := new Reader(content, smooth);
    ghost var whole := r.script;
    var absorbed: Bytes := [];
    while true
      invariant Streamed(absorbed, r.script, whole)
      invariant old(ctx.cause).Some? ==> ctx.cause == old(ctx.cause)
      decreases |r.script|
    {
      var stop := ctx.Cancelled();
      if stop {
        return None;
      }
      if r.script != [] {
        StreamStep(absorbed, r.script, whole);
      }
      var c := r.Read();
      absorbed := absorbed + c.data;
      if c.end.Eof? {
        return Some(h(absorbed));
      }
      if c.end.Fail? {
        return None;
      }
    }
  }
}
