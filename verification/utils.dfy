/** `utils.py`: the response-side code extraction and `consistent_hash`. */
module Utils {
  import opened Wrappers
  import opened Text
  import opened Code

  /** `parse_python_code_from_llm_response`: like `ParseCodeFromText`, but the
      response itself comes back when it holds no "```python" tag. */
  function ParseCodeFromResponse(response: string): (r: string)
    ensures !Contains(response, PythonTag) ==> r == response
    ensures Contains(response, PythonTag) ==> IsExtraction(response, r)
  {
    match IndexOf(response, PythonTag)
    case None => response
    case Some(start) => CutAtFence(response[start + |PythonTag|..])
  }

  /** The two extraction functions agree wherever the tag occurs; elsewhere the
      response version is the identity where the text version gives `None`. */
  lemma ResponseParserAgrees(response: string)
    ensures ParseCodeFromResponse(response) == ParseCodeFromText(response).GetOr(response)
    ensures Contains(response, PythonTag) ==>
              ParseCodeFromText(response) == Some(ParseCodeFromResponse(response))
  {
  }

  /** A text without a closing fence has no opening tag either. */
  lemma NoFenceNoTag(s: string)
    requires !Contains(s, Fence)
    ensures !Contains(s, PythonTag)
  {
    forall i: nat | OccursAt(s, PythonTag, i)
      ensures OccursAt(s, Fence, i)
    {
      PrefixOccurs(s, PythonTag, Fence, i);
    }
  }

  /** Extracting twice is extracting once. */
  lemma ResponseParserIdempotent(response: string)
    ensures ParseCodeFromResponse(ParseCodeFromResponse(response)) == ParseCodeFromResponse(response)
  {
    var once := ParseCodeFromResponse(response);
    if Contains(response, PythonTag) {
      ExtractionShape(response, once);
      NoFenceNoTag(once);
    }
  }

  const TwoTo63: int := 0x8000_0000_0000_0000
  const TwoTo64: int := 0x1_0000_0000_0000_0000
  const TwoTo256: int := 0x1_0000_0000_0000_0000_0000_0000_0000_0000_0000_0000_0000_0000_0000_0000_0000_0000

  /** A SHA-256 digest read as a non-negative integer (`int(hexdigest, 16)`). */
  type Digest = h: nat | h < TwoTo256

  /** The range of a signed 64-bit integer, which `consistent_hash` promises. */
  predicate IsSigned64(x: int) {
    -TwoTo63 <= x < TwoTo63
  }

  /** The final line of `consistent_hash` as written: the else-branch subtracts
      2**6, so the promised range holds only for digests below 2^63 + 64. */
  function ReduceAsWritten(h: Digest): (r: int)
    ensures h < TwoTo63 ==> r == h
    ensures IsSigned64(r) <==> h < TwoTo63 + 64
    ensures h >= TwoTo63 ==> r == h - 64
  {
    if h < TwoTo63 then h else h - 64
  }

  /** A digest for which the as-written reduction leaves the signed 64-bit range. */
  lemma ReduceAsWrittenEscapes()
    ensures ReduceAsWritten(TwoTo63 + 64) == TwoTo63
    ensures !IsSigned64(ReduceAsWritten(TwoTo63 + 64))
    ensures !IsSigned64(ReduceAsWritten(TwoTo256 / 2))
  {
  }

  /** The corrected reduction: the low 64 bits of the digest read in two's
      complement. It agrees with the source below 2^63. */
  function Reduce(h: Digest): (r: int)
    ensures IsSigned64(r)
    ensures h < TwoTo63 ==> r == h && r == ReduceAsWritten(h)
    ensures (h - r) % TwoTo64 == 0
  {
    var low := h % TwoTo64;
    if low < TwoTo63 then low else low - TwoTo64
  }

  /** Only one signed 64-bit value is congruent to a digest modulo 2^64, so
      `Reduce` is the one reduction that keeps the promised range. */
  lemma Signed64Unique(h: Digest, x: int)
    requires IsSigned64(x) && (h - x) % TwoTo64 == 0
    ensures x == Reduce(h)
  {
  }

  /** `consistent_hash` as written; `repr`, UTF-8 encoding and SHA-256 are
      parameters. */
  function ConsistentHashAsWritten(sha256: seq<bv8> -> Digest, utf8: string -> seq<bv8>, repr: string): (r: int)
    ensures IsSigned64(r) <==> sha256(utf8(repr)) < TwoTo63 + 64
  {
    ReduceAsWritten(sha256(utf8(repr)))
  }

  /** `consistent_hash` with the corrected reduction. */
  function ConsistentHash(sha256: seq<bv8> -> Digest, utf8: string -> seq<bv8>, repr: string): (r: int)
    ensures IsSigned64(r)
    ensures (sha256(utf8(repr)) - r) % TwoTo64 == 0
  {
    Reduce(sha256(utf8(repr)))
  }

  /** The hash depends on the object only through the bytes of its `repr`, so
      it is stable across sessions whenever `repr(obj)` is. */
  lemma HashDeterministic(sha256: seq<bv8> -> Digest, utf8: string -> seq<bv8>, a: string, b: string)
    requires utf8(a) == utf8(b)
    ensures ConsistentHash(sha256, utf8, a) == ConsistentHash(sha256, utf8, b)
    ensures ConsistentHashAsWritten(sha256, utf8, a) == ConsistentHashAsWritten(sha256, utf8, b)
  {
  }
}
