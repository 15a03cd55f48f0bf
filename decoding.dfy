/**
 * `contentToObject`: decode documents from a manifest text until one is
 * not null. Any decode error, the end of input among them, ends the search
 * with an error. The two copies of the function differ only in the case of
 * their error prefix.
 */
module Decoding {
  import opened Wrappers
  import opened Objects
  import opened Foreign

  /** What the decoder reports once the stream holds no further document. */
  const EndOfInput: string := "EOF"

  const ErrorPrefix: string := "failed to unmarshal manifest: "
  const LegacyErrorPrefix: string := "Failed to unmarshal manifest: "

  /** The first non-null document of a decode stream, or the error that stops it first. */
  function FirstDocument(steps: seq<DecodeStep>): Result<Unstructured, string> {
    if steps == [] then Failure(EndOfInput)
    else match steps[0]
      case DecodeError(e) => Failure(e)
      case Document(Some(o)) => Success(o)
      case Document(None) => FirstDocument(steps[1..])
  }

  /** What contentToObject returns for a text, with its error prefix. */
  function Unmarshalled(lib: Library, content: string, prefix: string): Result<Unstructured, string> {
    match FirstDocument(lib.decode(content))
    case Success(o) => Success(o)
    case Failure(e) => Failure(prefix + e)
  }

  predicate NullsBefore(steps: seq<DecodeStep>, i: nat)
    requires i <= |steps|
  {
    forall j :: 0 <= j < i ==> steps[j] == Document(None)
  }

  /** contentToObject(content) */
  method ContentToObject(lib: Library, content: string, prefix: string) returns (r: Result<Unstructured, string>)
    ensures r == Unmarshalled(lib, content, prefix)
  {
    var steps := lib.decode(content);
    var i := 0;
    while true
      invariant 0 <= i <= |steps|
      invariant FirstDocument(steps[i..]) == FirstDocument(steps)
      decreases |steps| - i
    {
      if i == |steps| {
        return Failure(prefix + EndOfInput);
      }
      assert steps[i..][1..] == steps[i + 1..];
      match steps[i]
      case DecodeError(e) =>
        return Failure(prefix + e);
      case Document(Some(o)) =>
        return Success(o);
      case Document(None) =>
        i := i + 1;
    }
  }

  /**
   * When the documents before i are all null and the i-th is not, the
   * i-th decides: its object, or its error.
   */
  lemma {:induction false} FirstDocumentAt(steps: seq<DecodeStep>, i: nat)
    requires i < |steps| && NullsBefore(steps, i)
    ensures steps[i].Document? && steps[i].doc.Some? ==> FirstDocument(steps) == Success(steps[i].doc.value)
    ensures steps[i].DecodeError? ==> FirstDocument(steps) == Failure(steps[i].message)
    decreases i
  {
    if i > 0 {
      assert steps[0] == Document(None);
      FirstDocumentAt(steps[1..], i - 1);
    }
  }

  /** A stream of nothing but null documents, the empty stream among them, ends in an end-of-input error. */
  lemma {:induction false} FirstDocumentAllNull(steps: seq<DecodeStep>)
    requires NullsBefore(steps, |steps|)
    ensures FirstDocument(steps) == Failure(EndOfInput)
    decreases |steps|
  {
    if steps != [] {
      assert steps[0] == Document(None);
      FirstDocumentAllNull(steps[1..]);
    }
  }

  /** A success is an object the stream really holds, preceded only by null documents. */
  lemma {:induction false} FirstDocumentFound(steps: seq<DecodeStep>)
    requires FirstDocument(steps).Success?
    ensures exists i :: 0 <= i < |steps| && NullsBefore(steps, i) && steps[i] == Document(Some(FirstDocument(steps).value))
    decreases |steps|
  {
    if steps[0] != Document(Some(FirstDocument(steps).value)) {
      FirstDocumentFound(steps[1..]);
      var i :| 0 <= i < |steps[1..]| && NullsBefore(steps[1..], i) && steps[1..][i] == Document(Some(FirstDocument(steps).value));
      assert NullsBefore(steps, i + 1);
    } else {
      assert NullsBefore(steps, 0);
    }
  }
}
