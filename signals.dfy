/** The Qt signals the two audio processors emit, and the progress values
    a sequence of signals carries. */
module Signals {

  /** A Qt signal emitted by a processor: `status_updated`,
      `progress_updated`, `processing_complete`, `error_occurred` or
      `processing_finished`. */
  datatype Event =
    | Status(text: string)
    | Progress(percent: int)
    | Complete(path: string)
    | ErrorOccurred(message: string)
    | Finished(path: string)

  /** The progress values among `events`, in order. */
  function ProgressValues(events: seq<Event>): seq<int>
  {
    if events == [] then []
    else
      var last := events[|events| - 1];
      ProgressValues(events[..|events| - 1]) + (if last.Progress? then [last.percent] else [])
  }

  /** One status signal per message, in order. */
  function StatusEvents(statuses: seq<string>): (r: seq<Event>)
    ensures |r| == |statuses| && forall i :: 0 <= i < |r| ==> r[i] == Status(statuses[i])
  {
    seq(|statuses|, i requires 0 <= i < |statuses| => Status(statuses[i]))
  }

  /** One more signal adds its progress value, if it has one. */
  lemma Snoc(events: seq<Event>, e: Event)
    ensures ProgressValues(events + [e]) == ProgressValues(events) + (if e.Progress? then [e.percent] else [])
  {
    assert (events + [e])[..|events|] == events;
  }

  /** The progress values of a concatenation are those of its parts, in order. */
  lemma {:induction false} ProgressValuesAppend(a: seq<Event>, b: seq<Event>)
    ensures ProgressValues(a + b) == ProgressValues(a) + ProgressValues(b)
    decreases |b|
  {
    if b == [] {
      assert a + b == a;
    } else {
      var m := |b| - 1;
      ProgressValuesAppend(a, b[..m]);
      assert (a + b)[..|a + b| - 1] == a + b[..m];
    }
  }

  /** Status signals carry no progress. */
  lemma {:induction false} StatusesHaveNoProgress(events: seq<Event>)
    requires forall i :: 0 <= i < |events| ==> events[i].Status?
    ensures ProgressValues(events) == []
    decreases |events|
  {
    if events != [] {
      StatusesHaveNoProgress(events[..|events| - 1]);
    }
  }
}
