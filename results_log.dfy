/** api/results/save.js: the in-process fallback store of prediction
    results, a log that keeps the latest 500 saved entries. The generated
    id and the clock reading are parameters; a body that does not parse
    is None. */
module ResultsLog {
  import opened Common

  const Capacity := 500

  /** `{ [idField]: id, ...body, [stampField]: time }`: the generated id comes
      first and a body field of that name replaces it; the stamp always comes
      from the server. Only an object body contributes fields. */
  function Stamped(idField: string, id: string, body: Json, stampField: string, time: string): (r: Record)
    ensures idField in r && stampField in r
    ensures r[stampField] == JStr(time)
    ensures idField != stampField ==>
              r[idField] == if body.JObj? && idField in body.fields then body.fields[idField] else JStr(id)
    ensures body.JObj? ==> forall k :: k in body.fields && k != stampField ==> k in r && r[k] == body.fields[k]
  {
    var fields := if body.JObj? then body.fields else map[];
    (map[idField := JStr(id)] + fields)[stampField := JStr(time)]
  }

  /** The save entry of save.js */
  function SaveEntry(body: Json, id: string, now: string): Record
  {
    Stamped("id", id, body, "savedAt", now)
  }

  /** The log after one save: the entry appended, then the oldest dropped
      when the log exceeds its capacity. */
  function AfterSave(memory: seq<Record>, entry: Record): (r: seq<Record>)
    ensures |r| > 0 && r[|r| - 1] == entry
    ensures r == memory + [entry] || (|memory| >= Capacity && r == memory[1..] + [entry])
    ensures |memory| <= Capacity ==> |r| <= Capacity
  {
    var next := memory + [entry];
    if |next| > Capacity then next[1..] else next
  }

  /** Keeping the last 500 entries is preserved by a save: the log is always
      the latest (up to) 500 saves, in order. */
  lemma SaveKeepsLatest(history: seq<Record>, entry: Record)
    ensures AfterSave(LastN(history, Capacity), entry) == LastN(history + [entry], Capacity)
  {
    var h := history + [entry];
    if |history| >= Capacity {
      assert LastN(history, Capacity) + [entry] == history[|history| - Capacity..] + [entry];
      assert (history[|history| - Capacity..] + [entry])[1..] == h[|h| - Capacity..];
    }
  }

  datatype SaveReply = MethodNotAllowed | Saved(entry: Record) | NoReply

  /** The module-level `memory` array. `saves` records every entry ever
      saved, so that the invariant can say which entries are kept. */
  class ResultLog {
    var memory: seq<Record>
    ghost var saves: seq<Record>

    ghost predicate Valid()
      reads this
    {
      memory == LastN(saves, Capacity)
    }

    constructor ()
      ensures Valid() && memory == [] && saves == []
    {
      memory := [];
      saves := [];
    }

    /** The handler. A non-POST request is refused and a body that fails to
        parse throws inside the stream's 'end' listener, outside the
        try/catch: neither changes the log. */
    method Handle(httpMethod: string, body: Option<Json>, id: string, now: string) returns (reply: SaveReply)
      requires Valid()
      modifies this
      ensures Valid()
      ensures httpMethod != "POST" ==> reply == MethodNotAllowed && memory == old(memory) && saves == old(saves)
      ensures httpMethod == "POST" && body.None? ==> reply == NoReply && memory == old(memory) && saves == old(saves)
      ensures httpMethod == "POST" && body.Some? ==>
                && reply == Saved(SaveEntry(body.value, id, now))
                && memory == AfterSave(old(memory), reply.entry)
                && saves == old(saves) + [reply.entry]
      ensures |memory| <= Capacity
    {
      if httpMethod != "POST" {
        return MethodNotAllowed;
      }
      if body.None? {
        return NoReply;
      }
      var entry := SaveEntry(body.value, id, now);
      SaveKeepsLatest(saves, entry);
      memory := memory + [entry];
      if |memory| > Capacity {
        memory := memory[1..];
      }
      saves := saves + [entry];
      reply := Saved(entry);
    }
  }
}
