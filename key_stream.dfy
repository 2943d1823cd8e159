/** What both keyboard applications share about the key stream: the codes
    they treat specially, where the stream ends, and the at-most-one message
    a key produces. */
module KeyStream {
  import opened Basics

  /** What `System.in.read()` returns once the input is exhausted. */
  const END_OF_STREAM: int := -1
  /** The code both loops skip before any lookup. */
  const LINE_FEED: int := '\n' as int

  /** The messages one key contributes: none or one. */
  function OptionToSeq<T>(o: Option<T>): (s: seq<T>)
    ensures |s| <= 1
  {
    match o
    case Some(x) => [x]
    case None => []
  }

  /** The keys the loop consumes: everything before the first end-of-stream code. */
  function UntilEndOfStream(keys: seq<int32>): (p: seq<int32>)
    ensures |p| <= |keys| && p == keys[..|p|]
    ensures END_OF_STREAM !in p
    ensures |p| == |keys| || keys[|p|] == END_OF_STREAM
  {
    if keys == [] || keys[0] == END_OF_STREAM then []
    else [keys[0]] + UntilEndOfStream(keys[1..])
  }

  /** The consumed prefix is the only prefix with those three properties. */
  lemma {:induction false} UntilEndOfStreamUnique(keys: seq<int32>, p: seq<int32>)
    requires |p| <= |keys| && p == keys[..|p|]
    requires END_OF_STREAM !in p
    requires |p| == |keys| || keys[|p|] == END_OF_STREAM
    ensures p == UntilEndOfStream(keys)
  {
    if p != [] {
      assert keys[0] == p[0];
      UntilEndOfStreamUnique(keys[1..], p[1..]);
    }
  }

  /** Nothing after the first end-of-stream code is read. */
  lemma KeysAfterEndOfStreamIgnored(before: seq<int32>, after: seq<int32>)
    requires END_OF_STREAM !in before
    ensures UntilEndOfStream(before + [END_OF_STREAM as int32] + after) == before
  {
    var keys := before + [END_OF_STREAM as int32] + after;
    assert keys[..|before|] == before;
    UntilEndOfStreamUnique(keys, before);
  }
}
