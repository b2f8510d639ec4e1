/** api/challenge/submit.js: the daily-challenge submissions, kept in an
    unbounded in-process list. GET lists the latest 100 with the total
    count; POST appends one submission. Ids and clock readings are
    parameters; a body that does not parse is None. */
module ChallengeLog {
  import opened Common
  import ResultsLog

  const ListLimit := 100

  /** `{ id, ...body, submittedAt }` */
  function SubmitEntry(body: Json, id: string, now: string): Record
  {
    ResultsLog.Stamped("id", id, body, "submittedAt", now)
  }

  /** The reply to a GET: the latest 100 entries, oldest first, and the
      number of entries held. */
  function Listing(entries: seq<Record>): (r: (seq<Record>, nat))
    ensures r.1 == |entries|
    ensures |r.0| == Min(ListLimit, |entries|)
    ensures entries == entries[..|entries| - |r.0|] + r.0
  {
    (LastN(entries, ListLimit), |entries|)
  }

  /** A submission is listed right after it is made. */
  lemma NewestIsListed(entries: seq<Record>, entry: Record)
    ensures var l := Listing(entries + [entry]).0; |l| > 0 && l[|l| - 1] == entry
    ensures Listing(entries + [entry]).1 == |entries| + 1
  {
    var l := Listing(entries + [entry]).0;
    assert (entries + [entry])[|entries|] == entry;
    assert l[|l| - 1] == (entries + [entry])[|entries|];
  }

  datatype ChallengeReply =
    | Preflight
    | Entries(entries: seq<Record>, todayTotal: nat)
    | MethodNotAllowed
    | Submitted(entry: Record)
    | NoReply

  class Submissions {
    var entries: seq<Record>
    ghost var posts: nat

    /** Every entry came from one accepted POST. */
    ghost predicate Valid()
      reads this
    {
      |entries| == posts
    }

    constructor ()
      ensures Valid() && entries == [] && posts == 0
    {
      entries := [];
      posts := 0;
    }

    /** The handler: OPTIONS and GET leave the list alone, other methods
        than POST are refused, and a body that fails to parse throws in the
        stream listener, outside the try/catch. */
    method Handle(httpMethod: string, body: Option<Json>, id: string, now: string) returns (reply: ChallengeReply)
      requires Valid()
      modifies this
      ensures Valid()
      ensures httpMethod == "OPTIONS" ==> reply == Preflight
      ensures httpMethod == "GET" ==> reply == Entries(Listing(entries).0, Listing(entries).1)
      ensures httpMethod !in {"OPTIONS", "GET", "POST"} ==> reply == MethodNotAllowed
      ensures httpMethod == "POST" && body.None? ==> reply == NoReply
      ensures httpMethod == "POST" && body.Some? ==>
                reply == Submitted(SubmitEntry(body.value, id, now)) &&
                entries == old(entries) + [reply.entry] && posts == old(posts) + 1
      ensures !(httpMethod == "POST" && body.Some?) ==> entries == old(entries) && posts == old(posts)
    {
      if httpMethod == "OPTIONS" {
        return Preflight;
      }
      if httpMethod == "GET" {
        var l := Listing(entries);
        return Entries(l.0, l.1);
      }
      if httpMethod != "POST" {
        return MethodNotAllowed;
      }
      if body.None? {
        return NoReply;
      }
      var entry := SubmitEntry(body.value, id, now);
      entries := entries + [entry];
      posts := posts + 1;
      reply := Submitted(entry);
    }
  }
}
