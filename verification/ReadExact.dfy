/** The loader's bounded read: exactly the announced length, however the source chunks its bytes. */
module ReadExact {
  import opened Prelude
  import opened StoreState

  type Byte = bv8

  /** What fits a vector: its length is a machine word. */
  type Content = b: seq<Byte> | |b| <= U64_MAX

  type IoError(==, !new)

  datatype LoadError =
    | SourceIo(error: IoError)
    | BudgetRejected(bytes: nat)
    | SourceChanged(expectedBytes: nat, observedBytes: nat)
    | SourceTooLarge
    | Core(reason: AssetError)

  /** How the source answers one read: with at most `1 + surplus` bytes, or with an error. */
  datatype Answer = Chunk(surplus: nat) | Fault(error: IoError)

  /** A readable source: `rest` is what it still holds, `answers` how it behaves. */
  class Source {
    var rest: seq<Byte>
    var calls: nat
    const answers: nat -> Answer

    constructor (content: seq<Byte>, answers: nat -> Answer)
      ensures rest == content && calls == 0 && this.answers == answers
    {
      rest, calls, this.answers := content, 0, answers;
    }

    /** `Read::read` into `buffer[from..]`: zero bytes mean that nothing is left. */
    method Read(buffer: array<Byte>, from: nat) returns (r: Result<nat, IoError>)
      requires from < buffer.Length
      modifies this, buffer
      ensures calls == old(calls) + 1
      ensures r == if answers(old(calls)).Fault? then Err(answers(old(calls)).error)
                   else Ok(Least(|old(rest)|, Least(buffer.Length - from, 1 + answers(old(calls)).surplus)))
      ensures rest == if r.Ok? then old(rest)[r.value..] else old(rest)
      ensures forall i | 0 <= i < buffer.Length ::
                buffer[i] == if r.Ok? && from <= i < from + r.value then old(rest)[i - from] else old(buffer[i])
    {
      var answer := answers(calls);
      calls := calls + 1;
      if answer.Fault? { return Err(answer.error); }
      var count := Least(|rest|, Least(buffer.Length - from, 1 + answer.surplus));
      for i := 0 to count
        modifies buffer
        invariant forall j | 0 <= j < buffer.Length ::
                    buffer[j] == if from <= j < from + i then rest[j - from] else old(buffer[j])
      {
        buffer[from + i] := rest[i];
      }
      rest := rest[count..];
      return Ok(count);
    }
  }

  function Least(a: nat, b: nat): nat {
    if a < b then a else b
  }

  /** The answer to the last read, of those from `first` to `last`, if it is the first error. */
  predicate Faults(answers: nat -> Answer, first: nat, last: nat) {
    first < last && answers(last - 1).Fault? && Clean(answers, first, last - 1)
  }

  predicate Clean(answers: nat -> Answer, first: nat, last: nat) {
    forall i | first <= i < last :: answers(i).Chunk?
  }

  /** What an error-free read of `content` comes to: its length alone decides. */
  function Verdict(content: seq<Byte>, sourceLen: U64, capacity: U64): Result<Content, LoadError> {
    if |content| == capacity then Ok(content)
    else Err(SourceChanged(sourceLen, if |content| < capacity then |content|
                                      else if sourceLen == U64_MAX then U64_MAX else sourceLen + 1))
  }

  /** What it comes to when the reads are those from `first` to `last`. */
  function ReadOutcome(content: seq<Byte>, answers: nat -> Answer, first: nat, last: nat, sourceLen: U64, capacity: U64)
    : Result<Content, LoadError>
  {
    if first < last && answers(last - 1).Fault? then Err(SourceIo(answers(last - 1).error))
    else Verdict(content, sourceLen, capacity)
  }

  method ReadExactBounded(source: Source, sourceLen: U64, capacity: U64) returns (r: Result<Content, LoadError>)
    modifies source
    ensures r == ReadOutcome(old(source.rest), source.answers, old(source.calls), source.calls, sourceLen, capacity)
    ensures
      || Clean(source.answers, old(source.calls), source.calls)
      || Faults(source.answers, old(source.calls), source.calls)
    ensures r.Ok? <==> Clean(source.answers, old(source.calls), source.calls) && |old(source.rest)| == capacity
    ensures r.Ok? ==> r.value == old(source.rest)
    ensures Faults(source.answers, old(source.calls), source.calls) ==>
      r == Err(SourceIo(source.answers(source.calls - 1).error))
    ensures r.Err? && Clean(source.answers, old(source.calls), source.calls) ==>
      && r.error.SourceChanged? && r.error.expectedBytes == sourceLen
      && (|old(source.rest)| < capacity ==> r.error.observedBytes == |old(source.rest)|)
      && (|old(source.rest)| > capacity ==> r.error.observedBytes > sourceLen || r.error.observedBytes == U64_MAX)
    ensures source.calls <= old(source.calls) + capacity + 1
    ensures |old(source.rest)| - |source.rest| <= capacity + 1
  {
    ghost var content, first := source.rest, source.calls;
    var bytes := new Byte[capacity](_ => 0);
    var filled := 0;
    while filled < bytes.Length
      invariant filled <= bytes.Length && filled <= |content| && source.rest == content[filled..]
      invariant forall i | 0 <= i < filled :: bytes[i] == content[i]
      invariant first <= source.calls <= first + filled && Clean(source.answers, first, source.calls)
    {
      var count := source.Read(bytes, filled);
      if count.Err? { return Err(SourceIo(count.error)); }
      if count.value == 0 { return Err(SourceChanged(sourceLen, filled)); }
      filled := filled + count.value;
    }
    var trailing := new Byte[1](_ => 0);
    var count := source.Read(trailing, 0);
    if count.Err? { return Err(SourceIo(count.error)); }
    if count.value != 0 {
      return Err(SourceChanged(sourceLen, if sourceLen == U64_MAX then U64_MAX else sourceLen + 1));
    }
    assert bytes[..] == content;
    return Ok(bytes[..]);
  }
}
