/** The transcript that the dictation handler of the note card builds from one
    recognition event: a left-to-right `reduce` over the event's result list
    that appends the first alternative of every result to an initially empty
    string (src/components/new-note-card.tsx, lines 66-68). */
module Transcript {

  /** One recognition result: the alternatives the engine proposes for one
      stretch of speech. The host always delivers at least one alternative,
      which is what makes `result[0]` in the handler well defined. */
  type SpeechRecognitionResult = alternatives: seq<string> | |alternatives| > 0 witness [""]

  /** The `reduce` fold as the handler writes it: the accumulator starts at ""
      and each result, from the first to the last, appends its first
      alternative on the right. */
  function Transcription(results: seq<SpeechRecognitionResult>): string
  {
    if results == [] then ""
    else Transcription(results[..|results| - 1]) + results[|results| - 1][0]
  }

  /** The first alternative of each result, in order. */
  function FirstAlternatives(results: seq<SpeechRecognitionResult>): (firsts: seq<string>)
    ensures |firsts| == |results|
    ensures forall i :: 0 <= i < |results| ==> firsts[i] == results[i][0]
  {
    seq(|results|, i requires 0 <= i < |results| => results[i][0])
  }

  /** Reference definition: the concatenation of a list of pieces, written as
      a right fold, independently of the handler's left fold. */
  function Concat(pieces: seq<string>): string
  {
    if pieces == [] then "" else pieces[0] + Concat(pieces[1..])
  }

  /** The sum of the lengths of a list of pieces. */
  function TotalLength(pieces: seq<string>): nat
  {
    if pieces == [] then 0 else |pieces[0]| + TotalLength(pieces[1..])
  }

  lemma {:induction false} ConcatSnoc(pieces: seq<string>, last: string)
    ensures Concat(pieces + [last]) == Concat(pieces) + last
  {
    if pieces == [] {
      assert pieces + [last] == [last];
    } else {
      assert (pieces + [last])[1..] == pieces[1..] + [last];
      ConcatSnoc(pieces[1..], last);
    }
  }

  lemma {:induction false} ConcatLength(pieces: seq<string>)
    ensures |Concat(pieces)| == TotalLength(pieces)
  {
    if pieces != [] {
      ConcatLength(pieces[1..]);
    }
  }

  /** The handler's left fold is the left-to-right concatenation of the
      first alternatives. */
  lemma {:induction false} TranscriptionIsConcat(results: seq<SpeechRecognitionResult>)
    ensures Transcription(results) == Concat(FirstAlternatives(results))
  {
    if results != [] {
      var init, last := results[..|results| - 1], results[|results| - 1];
      TranscriptionIsConcat(init);
      assert FirstAlternatives(results) == FirstAlternatives(init) + [last[0]];
      ConcatSnoc(FirstAlternatives(init), last[0]);
    }
  }

  /** The transcript is exactly as long as all first alternatives together. */
  lemma TranscriptionLength(results: seq<SpeechRecognitionResult>)
    ensures |Transcription(results)| == TotalLength(FirstAlternatives(results))
  {
    TranscriptionIsConcat(results);
    ConcatLength(FirstAlternatives(results));
  }

  /** Splitting the result list splits the transcript at the same place. */
  lemma {:induction false} TranscriptionAppend(front: seq<SpeechRecognitionResult>, back: seq<SpeechRecognitionResult>)
    ensures Transcription(front + back) == Transcription(front) + Transcription(back)
  {
    if back == [] {
      assert front + back == front;
    } else {
      var init, last := back[..|back| - 1], back[|back| - 1];
      assert (front + back)[..|front + back| - 1] == front + init;
      TranscriptionAppend(front, init);
    }
  }

  /** The i-th result's first alternative sits in the transcript right after
      the transcript of the results before it. */
  lemma TranscriptionSegment(results: seq<SpeechRecognitionResult>, i: nat)
    requires i < |results|
    ensures var start := |Transcription(results[..i])|;
            start + |results[i][0]| <= |Transcription(results)| &&
            Transcription(results)[start..start + |results[i][0]|] == results[i][0]
  {
    var before, rest := results[..i], results[i + 1..];
    assert results == before + [results[i]] + rest;
    TranscriptionAppend(before + [results[i]], rest);
    TranscriptionAppend(before, [results[i]]);
    assert Transcription([results[i]]) == results[i][0] by {
      assert [results[i]][..0] == [];
    }
  }

  lemma {:induction false} TotalLengthZero(pieces: seq<string>)
    ensures TotalLength(pieces) == 0 <==> forall i :: 0 <= i < |pieces| ==> pieces[i] == ""
  {
    if pieces != [] {
      TotalLengthZero(pieces[1..]);
      assert forall i :: 1 <= i < |pieces| ==> pieces[i] == pieces[1..][i - 1];
    }
  }

  /** A recognition event yields an empty note exactly when every result's
      first alternative is empty; in particular an empty result list does. */
  lemma {:induction false} TranscriptionEmpty(results: seq<SpeechRecognitionResult>)
    ensures Transcription(results) == "" <==> forall i :: 0 <= i < |results| ==> results[i][0] == ""
  {
    TranscriptionLength(results);
    TotalLengthZero(FirstAlternatives(results));
  }
}
