/** Reading the pool's answer to one submission. */
module Submit {
  import opened Hits

  datatype Reply = Reply(status: int, body: string)

  predicate Says(r: Reply, text: string) {
    Contains(ToLower(r.body), text)
  }

  predicate SubmitAccepted(r: Reply) {
    200 <= r.status < 300 || Says(r, "already exists")
  }

  predicate IsDifficultyMismatch(r: Reply) {
    && r.status != 0
    && (|| Says(r, "hash does not contain 'm=")
        || (Says(r, "does not contain") && Says(r, "m="))
        || (Says(r, "memory_cost") && Says(r, "does not contain"))
        || Says(r, "hash verification failed"))
  }

  predicate IsXuniWindowReject(r: Reply) {
    && r.status != 0
    && (|| Says(r, "outside of time window") || Says(r, "outside of proper time frame")
        || Says(r, "time frame") || Says(r, "time window"))
  }

  predicate IsTransient(r: Reply) {
    r.status == 0 || Says(r, "timed out") || Says(r, "timeout") || Says(r, "connection")
  }

  predicate IsPoolHold(r: Reply) {
    r.status == 401 || r.status == 403 || r.status == 429 || Says(r, "hash verification failed")
  }

  /** How a flush treats an answer, in the order it asks. */
  datatype Verdict = Accept | Transport | Hold(parked: bool) | Reject

  function Judge(r: Reply): Verdict {
    if SubmitAccepted(r) then Accept
    else if r.status == 0 || IsTransient(r) then Transport
    else if IsPoolHold(r) || IsDifficultyMismatch(r) || IsXuniWindowReject(r) then Hold(IsDifficultyMismatch(r))
    else Reject
  }

  // ---- the verdict, from the status and the letters of the body ------------------------

  predicate MatchesAt(body: string, text: string, i: nat) {
    i + |text| <= |body| && forall j :: 0 <= j < |text| ==> SameLetter(body[i + j], text[j])
  }

  /** The text stands somewhere in the body, in whatever case. */
  predicate HoldsAnyCase(body: string, text: string) {
    exists i: nat :: i <= |body| && MatchesAt(body, text, i)
  }

  lemma SaysAnyCase(r: Reply, text: string)
    requires forall j :: 0 <= j < |text| ==> !('A' <= text[j] <= 'Z')
    ensures Says(r, text) <==> HoldsAnyCase(r.body, text)
  {
    var low := ToLower(r.body);
    forall i: nat | i <= |low|
      ensures OccursAt(low, text, i) <==> MatchesAt(r.body, text, i)
    {
      if i + |text| <= |low| {
        var part := low[i..i + |text|];
        assert forall j :: 0 <= j < |text| ==> (part[j] == text[j] <==> SameLetter(r.body[i + j], text[j]));
      }
    }
  }

  /** The pool took the find. */
  predicate Took(r: Reply) {
    200 <= r.status <= 299 || HoldsAnyCase(r.body, "already exists")
  }

  /** The answer speaks of the connection, or there is no answer at all. */
  predicate LineBroke(r: Reply) {
    r.status == 0 || HoldsAnyCase(r.body, "timed out") || HoldsAnyCase(r.body, "timeout")
    || HoldsAnyCase(r.body, "connection")
  }

  /** The pool asks for another memory cost. */
  predicate WrongM(r: Reply) {
    || HoldsAnyCase(r.body, "hash verification failed")
    || (HoldsAnyCase(r.body, "does not contain")
        && (HoldsAnyCase(r.body, "m=") || HoldsAnyCase(r.body, "memory_cost")))
  }

  predicate WrongTime(r: Reply) {
    HoldsAnyCase(r.body, "time frame") || HoldsAnyCase(r.body, "time window")
  }

  lemma PartOf(body: string, front: string, part: string, back: string)
    requires HoldsAnyCase(body, front + part + back)
    ensures HoldsAnyCase(body, part)
  {
    var whole := front + part + back;
    var i: nat :| i <= |body| && MatchesAt(body, whole, i);
    forall j | 0 <= j < |part|
      ensures SameLetter(body[i + |front| + j], part[j])
    {
      assert part[j] == whole[|front| + j];
      assert SameLetter(body[i + (|front| + j)], whole[|front| + j]);
    }
    assert MatchesAt(body, part, i + |front|);
  }

  lemma LongerTexts()
    ensures "hash " + "does not contain" + " 'm=" == "hash does not contain 'm="
    ensures "hash does not contain '" + "m=" + "" == "hash does not contain 'm="
    ensures "outside of " + "time window" + "" == "outside of time window"
    ensures "outside of proper " + "time frame" + "" == "outside of proper time frame"
  {
  }

  lemma LongerHold(r: Reply)
    ensures HoldsAnyCase(r.body, "hash does not contain 'm=")
            ==> HoldsAnyCase(r.body, "does not contain") && HoldsAnyCase(r.body, "m=")
    ensures HoldsAnyCase(r.body, "outside of time window") ==> HoldsAnyCase(r.body, "time window")
    ensures HoldsAnyCase(r.body, "outside of proper time frame") ==> HoldsAnyCase(r.body, "time frame")
  {
    hide HoldsAnyCase;
    LongerTexts();
    if HoldsAnyCase(r.body, "hash does not contain 'm=") {
      PartOf(r.body, "hash ", "does not contain", " 'm=");
      PartOf(r.body, "hash does not contain '", "m=", "");
    }
    if HoldsAnyCase(r.body, "outside of time window") {
      PartOf(r.body, "outside of ", "time window", "");
    }
    if HoldsAnyCase(r.body, "outside of proper time frame") {
      PartOf(r.body, "outside of proper ", "time frame", "");
    }
  }

  lemma MismatchExactly(r: Reply)
    requires r.status != 0
    ensures IsDifficultyMismatch(r) <==> WrongM(r)
    ensures IsPoolHold(r) <==> r.status in {401, 403, 429} || HoldsAnyCase(r.body, "hash verification failed")
  {
    hide Says, HoldsAnyCase;
    SaysAnyCase(r, "hash does not contain 'm=");
    SaysAnyCase(r, "does not contain");
    SaysAnyCase(r, "m=");
    SaysAnyCase(r, "memory_cost");
    SaysAnyCase(r, "hash verification failed");
    LongerHold(r);
  }

  /** What each answer comes to. Three of the texts the code looks for are never the
      deciding ones, as a shorter one stands in them. */
  lemma JudgeExactly(r: Reply)
    ensures Judge(r).Accept? <==> Took(r)
    ensures Judge(r).Transport? <==> !Took(r) && LineBroke(r)
    ensures Judge(r).Hold? <==> !Took(r) && !LineBroke(r)
                                && (r.status in {401, 403, 429} || WrongM(r) || WrongTime(r))
    ensures Judge(r).Hold? ==> (Judge(r).parked <==> WrongM(r))
  {
    hide Says, HoldsAnyCase;
    SaysAnyCase(r, "already exists");
    SaysAnyCase(r, "timed out");
    SaysAnyCase(r, "timeout");
    SaysAnyCase(r, "connection");
    if r.status != 0 {
      MismatchExactly(r);
    }
    SaysAnyCase(r, "outside of time window");
    SaysAnyCase(r, "outside of proper time frame");
    SaysAnyCase(r, "time frame");
    SaysAnyCase(r, "time window");
    LongerHold(r);
  }
}
