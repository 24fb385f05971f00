/** `publish_status`: the JSON object that carries one status to the gateway.

    Results of the engine are merged into it; a result key `status` must not displace the
    status itself, which the gateway's loops test for their exit. */
module StatusPayload {
  type Key = string
  type Value = string

  /** Where an extra key ends up. */
  function Renamed(k: Key): Key {
    if k == "status" then "engine_status" else k
  }

  /** The extra entries laid over the base one after the other. */
  function Merged(base: map<Key, Value>, extra: seq<(Key, Value)>): map<Key, Value> {
    if |extra| == 0 then base
    else
      var last := extra[|extra| - 1];
      Merged(base, extra[..|extra| - 1])[Renamed(last.0) := last.1]
  }

  method PublishPayload(status: Value, message: Value, extra: seq<(Key, Value)>) returns (payload: map<Key, Value>)
    ensures payload == Merged(map["status" := status, "message" := message], extra)
  {
    payload := map["status" := status, "message" := message];
    for i := 0 to |extra|
      invariant payload == Merged(map["status" := status, "message" := message], extra[..i])
    {
      assert extra[..i + 1][..i] == extra[..i];
      var (k, v) := extra[i];
      if k == "status" {
        payload := payload["engine_status" := v];
      } else {
        payload := payload[k := v];
      }
    }
    assert extra[..|extra|] == extra;
  }

  predicate DistinctKeys(extra: seq<(Key, Value)>) {
    forall i, j :: 0 <= i < j < |extra| ==> extra[i].0 != extra[j].0
  }

  /** Whatever keys the engine's result has, the published status is the one given. */
  lemma {:induction false} StatusSurvives(base: map<Key, Value>, extra: seq<(Key, Value)>)
    requires "status" in base
    ensures "status" in Merged(base, extra) && Merged(base, extra)["status"] == base["status"]
  {
    if |extra| > 0 {
      StatusSurvives(base, extra[..|extra| - 1]);
    }
  }

  predicate StatusLike(k: Key) { k == "status" || k == "engine_status" }

  /** Every entry of the result arrives: `status` as `engine_status`, any other under its own name.
      Only a later one of the keys `status` and `engine_status` can displace the other. */
  lemma {:induction false} EntriesArrive(base: map<Key, Value>, extra: seq<(Key, Value)>, i: nat)
    requires i < |extra| && DistinctKeys(extra)
    requires StatusLike(extra[i].0) ==> forall j :: i < j < |extra| ==> !StatusLike(extra[j].0)
    ensures var name := if extra[i].0 == "status" then "engine_status" else extra[i].0;
            name in Merged(base, extra) && Merged(base, extra)[name] == extra[i].1
  {
    if i < |extra| - 1 {
      EntriesArrive(base, extra[..|extra| - 1], i);
    }
  }

  /** And nothing else does: what is published under a name is an entry that has it, or the
      `status` of the result under `engine_status`, or the base entry. */
  lemma {:induction false} NothingElseArrives(base: map<Key, Value>, extra: seq<(Key, Value)>, name: Key)
    requires name in Merged(base, extra)
    ensures (name in base && Merged(base, extra)[name] == base[name])
            || exists i :: 0 <= i < |extra| && Merged(base, extra)[name] == extra[i].1
                           && (extra[i].0 == name || (extra[i].0 == "status" && name == "engine_status"))
  {
    if |extra| > 0 {
      var last := extra[|extra| - 1];
      if Renamed(last.0) != name {
        NothingElseArrives(base, extra[..|extra| - 1], name);
      } else {
        assert Merged(base, extra)[name] == extra[|extra| - 1].1;
      }
    }
  }
}
