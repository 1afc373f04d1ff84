/** What a /verify answer means for the block that was sent (src/network/submitter.cpp). */
module Responses {
  import opened Text

  predicate SubmitAccepted(status: int, body: string) {
    200 <= status < 300 || Contains(Lower(body), "already exists")
  }

  predicate IsDifficultyMismatch(status: int, body: string) {
    && status != 0
    && var l := Lower(body);
    || Contains(l, "hash does not contain 'm=")
    || (Contains(l, "does not contain") && Contains(l, "m="))
    || (Contains(l, "memory_cost") && Contains(l, "does not contain"))
  }

  predicate IsXuniWindowReject(status: int, body: string) {
    && status != 0
    && var l := Lower(body);
    || Contains(l, "outside of time window")
    || Contains(l, "outside of proper time frame")
    || Contains(l, "time frame")
    || Contains(l, "time window")
  }

  predicate IsTransient(status: int, body: string) {
    || status == 0
    || var l := Lower(body);
       Contains(l, "timed out") || Contains(l, "timeout") || Contains(l, "connection")
  }

  predicate IsPoolHold(status: int, body: string) {
    && !IsDifficultyMismatch(status, body)
    && (status == 401 || status == 403 || status == 429 || Contains(Lower(body), "hash verification failed"))
  }

  predicate CountsAsReject(status: int, body: string) {
    && !SubmitAccepted(status, body)
    && !IsDifficultyMismatch(status, body)
    && !IsXuniWindowReject(status, body)
    && !IsTransient(status, body)
    && !IsPoolHold(status, body)
  }

  datatype Outcome = Accepted | Transient | Held | Rejected

  /** The branch that a flush wave takes (src/app/supervisor.cpp, handle_one). The last branch needs no test of its own:
      it is reached exactly for answers that count as rejects. */
  function FlushOutcome(status: int, body: string): (r: Outcome)
    ensures r == Accepted <==> SubmitAccepted(status, body)
    ensures r == Transient <==> !SubmitAccepted(status, body) && IsTransient(status, body)
    ensures r == Held <==>
      && !SubmitAccepted(status, body) && !IsTransient(status, body)
      && (IsPoolHold(status, body) || IsDifficultyMismatch(status, body) || IsXuniWindowReject(status, body))
    ensures r == Rejected <==> CountsAsReject(status, body)
  {
    if SubmitAccepted(status, body) then Accepted
    else if status == 0 || IsTransient(status, body) then Transient
    else if IsPoolHold(status, body) || IsDifficultyMismatch(status, body) || IsXuniWindowReject(status, body) then Held
    else Rejected
  }

  // ---------- What decides ----------

  predicate Says(body: string, phrase: string) {
    Contains(Lower(body), phrase)
  }

  lemma PartSaid(body: string, before: string, part: string, after: string)
    requires Says(body, before + part + after)
    ensures Says(body, part)
  {
    var whole, from := before + part + after, |before|;
    var l := Lower(body);
    var i :| 0 <= i <= |l| && OccursAt(l, whole, i);
    assert l[i + from..i + from + |part|] == l[i..i + |whole|][from..from + |part|];
    assert OccursAt(l, part, i + from);
  }

  /** A wrong memory cost and a closed XUNI window are told by their shortest phrases alone. */
  lemma ShortPhrases(status: int, body: string)
    ensures IsDifficultyMismatch(status, body) <==>
      status != 0 && Says(body, "does not contain") && (Says(body, "m=") || Says(body, "memory_cost"))
    ensures IsXuniWindowReject(status, body) <==>
      status != 0 && (Says(body, "time frame") || Says(body, "time window"))
  {
    hide Lower, Contains;
    Mismatch(body);
    Window(body);
  }

  lemma Mismatch(body: string)
    ensures Says(body, "hash does not contain 'm=") ==> Says(body, "does not contain") && Says(body, "m=")
  {
    hide Says;
    assert "hash does not contain 'm=" == "hash " + "does not contain" + " 'm=";
    assert "hash does not contain 'm=" == "hash does not contain '" + "m=" + "";
    if Says(body, "hash does not contain 'm=") {
      PartSaid(body, "hash ", "does not contain", " 'm=");
      PartSaid(body, "hash does not contain '", "m=", "");
    }
  }

  lemma Window(body: string)
    ensures Says(body, "outside of time window") ==> Says(body, "time window")
    ensures Says(body, "outside of proper time frame") ==> Says(body, "time frame")
  {
    hide Says;
    assert "outside of time window" == "outside of " + "time window" + "";
    assert "outside of proper time frame" == "outside of proper " + "time frame" + "";
    if Says(body, "outside of time window") {
      PartSaid(body, "outside of ", "time window", "");
    }
    if Says(body, "outside of proper time frame") {
      PartSaid(body, "outside of proper ", "time frame", "");
    }
  }

  /** What becomes of a block by the status and the words of the answer: accepted for a status from 200 to 299 or a
      duplicate; unanswered, or a word of broken connections: tried again; three statuses, a failed hash check, a wrong
      memory cost, a closed window: held; anything else is a reject. */
  lemma OutcomeTable(status: int, body: string)
    ensures var taken := status / 100 == 2 || Says(body, "already exists");
      var broken := status == 0 || Says(body, "timed out") || Says(body, "timeout") || Says(body, "connection");
      var wrongM := Says(body, "does not contain") && (Says(body, "m=") || Says(body, "memory_cost"));
      var closed := Says(body, "time frame") || Says(body, "time window");
      var shed := status in {401, 403, 429} || Says(body, "hash verification failed");
      FlushOutcome(status, body) ==
        if taken then Accepted else if broken then Transient
        else if wrongM || closed || shed then Held else Rejected
  {
    ShortPhrases(status, body);
    hide Lower, Contains;
  }
}
