/**
 * What the client sees of one request sent with axios: either the promise
 * resolves with the reply's body, or it rejects and the client reads
 * `e?.response?.data?.message` (the empty string when there is none).
 */
module Http {

  import opened Wrappers

  datatype Reply<+D> = Ok(data: D) | Failed(message: string)

  /** JavaScript's `a || b` on strings: `a` unless it is the empty (falsy) string. */
  function OrElse(a: string, b: string): (r: string)
    ensures a != "" ==> r == a
    ensures a == "" ==> r == b
  {
    if a != "" then a else b
  }

  /** The message of the first rejected reply, in request order, if any reply was rejected. */
  function FirstFailure<D>(replies: seq<Reply<D>>): (m: Option<string>)
    ensures m.None? <==> forall i :: 0 <= i < |replies| ==> replies[i].Ok?
    ensures m.Some? ==> exists i :: 0 <= i < |replies| && replies[i] == Failed(m.value)
                                   && forall j :: 0 <= j < i ==> replies[j].Ok?
  {
    if replies == [] then None
    else
      var earlier := replies[..|replies| - 1];
      var m := FirstFailure(earlier);
      if m.Some? then
        assert forall i :: 0 <= i < |earlier| ==> earlier[i] == replies[i];
        m
      else if replies[|replies| - 1].Failed? then Some(replies[|replies| - 1].message)
      else None
  }

  /** The replies to `n` requests numbered from 1, as `Promise.all` gathers them. */
  function Replies<D>(reply: nat -> Reply<D>, n: nat): (r: seq<Reply<D>>)
    ensures |r| == n
    ensures forall i :: 0 <= i < n ==> r[i] == reply(i + 1)
  {
    seq(n, i requires 0 <= i < n => reply(i + 1))
  }
}
