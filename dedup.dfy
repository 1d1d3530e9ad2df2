/**
 * Change-deduplication of sensor state (uhome/uhome.py:79-85): a payload
 * is sent only when it differs from the last one sent.
 */
module Dedup {
  import opened Values

  /**
   * The payloads a sensor sends when `publish` is called with each of
   * `values` in turn, starting from last payload `last`; after every call
   * the last payload is the value just passed.
   */
  function Sent(last: Option<string>, values: seq<string>): (out: seq<string>)
    ensures |out| <= |values|
    ensures values != [] && last != Some(values[0]) ==> out != [] && out[0] == values[0]
    decreases |values|
  {
    if values == [] then []
    else (if last == Some(values[0]) then [] else [values[0]]) + Sent(Some(values[0]), values[1..])
  }

  /**
   * What is sent never repeats the previous payload, and is drawn from the
   * values passed.
   */
  lemma {:induction false} SentHasNoRepeats(last: Option<string>, values: seq<string>)
    ensures var out := Sent(last, values);
      && |out| <= |values|
      && (out != [] ==> last != Some(out[0]))
      && (forall i :: 0 < i < |out| ==> out[i] != out[i - 1])
      && (forall i :: 0 <= i < |out| ==> out[i] in values)
    decreases |values|
  {
    if values != [] {
      SentHasNoRepeats(Some(values[0]), values[1..]);
      assert forall v :: v in values[1..] ==> v in values;
    }
  }

  /** A change is never lost: the hub ends up with the value passed last. */
  lemma {:induction false} SentEndsWithLatest(last: Option<string>, values: seq<string>)
    requires values != []
    ensures var out := Sent(last, values);
      if out == [] then last == Some(values[|values| - 1]) else out[|out| - 1] == values[|values| - 1]
    decreases |values|
  {
    if |values| > 1 {
      SentEndsWithLatest(Some(values[0]), values[1..]);
    }
  }

  /** The same value passed twice in a row is sent at most once; a new value after it is sent. */
  lemma RepeatSentOnce(last: Option<string>, v: string, w: string)
    requires w != v
    ensures Sent(last, [v, v]) == (if last == Some(v) then [] else [v])
    ensures Sent(last, [v, v, w]) == Sent(last, [v]) + [w]
  {
  }
}
