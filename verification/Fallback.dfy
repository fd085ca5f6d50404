/** Asking one model after another until a response is accepted. */
module Fallback {
  import opened Text

  /** What an attempt comes back with: a failed call, or a body and what the validator says of it. A validator that
      throws complains with the message thrown. */
  datatype Answer = Failed(transient: bool) | Body(content: string, complaint: Option<string>)

  /** No complaint, or an empty one: the code asks only whether the complaint is a truthy string. */
  predicate Accepted(a: Answer) {
    a.Body? && (a.complaint.None? || a.complaint.value == "")
  }

  /** The same model is asked again: its body was rejected, or the call failed in passing. */
  predicate Retried(a: Answer) {
    !Accepted(a) && (a.Body? || a.transient)
  }

  /** Once model `m` is tried at all, its attempt `a` is made. */
  ghost predicate Reaches(answers: (nat, nat) -> Answer, m: nat, a: nat, retries: int) {
    a <= retries && forall k: nat :: k < a ==> Retried(answers(m, k))
  }

  /** Model `m` never gets a response accepted. */
  ghost predicate GivesUp(answers: (nat, nat) -> Answer, m: nat, retries: int) {
    forall a: nat :: Reaches(answers, m, a, retries) ==> !Accepted(answers(m, a))
  }

  /** Attempt `a` of model `m` is made: every model before it gave up. */
  ghost predicate Made(answers: (nat, nat) -> Answer, m: nat, a: nat, retries: int) {
    Reaches(answers, m, a, retries) && forall k: nat :: k < m ==> GivesUp(answers, k, retries)
  }

  datatype Call = Call(model: nat, attempt: nat)

  predicate Before(c: Call, d: Call) {
    c.model < d.model || (c.model == d.model && c.attempt < d.attempt)
  }

  predicate InOrder(calls: seq<Call>) {
    forall i, j :: 0 <= i < j < |calls| ==> Before(calls[i], calls[j])
  }

  /** The calls are exactly the attempts made among those before attempt `a` of model `m`. */
  ghost predicate Exactly(calls: seq<Call>, answers: (nat, nat) -> Answer, m: nat, a: nat, retries: int) {
    && InOrder(calls)
    && forall c :: c in calls <==> Before(c, Call(m, a)) && Made(answers, c.model, c.attempt, retries)
  }

  lemma OneMore(calls: seq<Call>, answers: (nat, nat) -> Answer, m: nat, a: nat, retries: int)
    requires Exactly(calls, answers, m, a, retries) && Made(answers, m, a, retries)
    ensures Exactly(calls + [Call(m, a)], answers, m, a + 1, retries)
  {
    var more := calls + [Call(m, a)];
    forall i, j | 0 <= i < j < |more| ensures Before(more[i], more[j]) {
      assert more[i] == calls[i] && more[i] in calls;
    }
  }

  /** Nothing after attempt `a` of this model is made, so the next model stands where this one ends. */
  lemma NextModel(calls: seq<Call>, answers: (nat, nat) -> Answer, m: nat, a: nat, retries: int)
    requires Exactly(calls, answers, m, a, retries) && !Reaches(answers, m, a, retries)
    ensures Exactly(calls, answers, m + 1, 0, retries)
  {
    forall c ensures c in calls <==> Before(c, Call(m + 1, 0)) && Made(answers, c.model, c.attempt, retries) {
      if c.model == m && c.attempt >= a && Reaches(answers, m, c.attempt, retries) {
        assert false;
      }
    }
  }

  lemma Stops(answers: (nat, nat) -> Answer, m: nat, a: nat, retries: int)
    requires Reaches(answers, m, a, retries) && (a >= retries || !Retried(answers(m, a)))
    ensures !Reaches(answers, m, a + 1, retries)
  {
  }

  lemma NoneAfter(answers: (nat, nat) -> Answer, m: nat, a: nat, retries: int)
    requires !Reaches(answers, m, a, retries) && forall k: nat :: k < a ==> !Accepted(answers(m, k))
    ensures GivesUp(answers, m, retries)
  {
    forall k: nat | Reaches(answers, m, k, retries) ensures !Accepted(answers(m, k)) {
      assert k >= a ==> Reaches(answers, m, a, retries);
    }
  }

  /** callWithFallback over `models` models: the attempt that won, and every call made. */
  method CallWithFallback(models: nat, retries: int, answers: (nat, nat) -> Answer)
    returns (winner: Option<Call>, calls: seq<Call>)
    ensures winner.Some? ==> winner.value.model < models
    ensures winner.Some? ==> Made(answers, winner.value.model, winner.value.attempt, retries)
    ensures winner.Some? ==> Accepted(answers(winner.value.model, winner.value.attempt))
    ensures winner.Some? ==> Exactly(calls, answers, winner.value.model, winner.value.attempt + 1, retries)
    ensures winner.None? ==> forall m: nat :: m < models ==> GivesUp(answers, m, retries)
    ensures winner.None? ==> Exactly(calls, answers, models, 0, retries)
  {
    calls := [];
    var model := 0;
    while model < models
      invariant 0 <= model <= models && Exactly(calls, answers, model, 0, retries)
      invariant forall k: nat :: k < model ==> GivesUp(answers, k, retries)
    {
      var attempt := 0;
      while attempt <= retries
        invariant 0 <= attempt && (attempt <= retries ==> Reaches(answers, model, attempt, retries))
        invariant forall k: nat :: k < attempt ==> Retried(answers(model, k))
        invariant Exactly(calls, answers, model, attempt, retries)
      {
        OneMore(calls, answers, model, attempt, retries);
        calls := calls + [Call(model, attempt)];
        var r := answers(model, attempt);
        if r.Body? {
          if r.complaint.None? || r.complaint.value == "" {
            return Some(Call(model, attempt)), calls;
          }
        }
        attempt := attempt + 1;
        if (r.Failed? && !r.transient) || attempt - 1 == retries {
          Stops(answers, model, attempt - 1, retries);
          break;
        }
      }
      NextModel(calls, answers, model, attempt, retries);
      NoneAfter(answers, model, attempt, retries);
      model := model + 1;
    }
    winner := None;
  }

  /** At most one attempt is made and accepted, so the result is determined: it is that one, or failure if there is none. */
  lemma OneWinner(answers: (nat, nat) -> Answer, retries: int, c: Call, d: Call)
    requires Made(answers, c.model, c.attempt, retries) && Accepted(answers(c.model, c.attempt))
    requires Made(answers, d.model, d.attempt, retries) && Accepted(answers(d.model, d.attempt))
    ensures c == d
  {
    assert c.model < d.model ==> GivesUp(answers, c.model, retries);
    assert d.model < c.model ==> GivesUp(answers, d.model, retries);
    assert c.attempt < d.attempt ==> Retried(answers(d.model, c.attempt));
    assert d.attempt < c.attempt ==> Retried(answers(c.model, d.attempt));
  }

  ghost predicate Wins(answers: (nat, nat) -> Answer, m: nat, a: nat, retries: int) {
    Made(answers, m, a, retries) && Accepted(answers(m, a))
  }

  ghost predicate Answers(answers: (nat, nat) -> Answer, m: nat, a: nat, retries: int) {
    Reaches(answers, m, a, retries) && Accepted(answers(m, a))
  }

  /** The call fails only when no model, asked by itself as often as it may be, would have answered acceptably: one
      model's failures never cost another its turn. */
  lemma {:induction false} FailsIff(answers: (nat, nat) -> Answer, models: nat, retries: int)
    ensures (exists m: nat, a: nat :: m < models && Wins(answers, m, a, retries)) <==>
            (exists m: nat, a: nat :: m < models && Answers(answers, m, a, retries))
  {
    if m: nat, a: nat :| m < models && Wins(answers, m, a, retries) {
      assert Answers(answers, m, a, retries);
    } else if models > 0 {
      FailsIff(answers, models - 1, retries);
      assert !exists m: nat, a: nat :: m < models - 1 && Wins(answers, m, a, retries);
      forall k: nat, a: nat | k < models - 1 && Reaches(answers, k, a, retries) ensures !Accepted(answers(k, a)) {
        assert !Answers(answers, k, a, retries);
      }
      var last: nat := models - 1;
      forall a: nat | Answers(answers, last, a, retries) ensures Wins(answers, last, a, retries) {
        assert forall k: nat :: k < last ==> GivesUp(answers, k, retries);
      }
    }
  }

  /** No more than retries + 1 calls a model. */
  lemma {:induction false} CallsAreBounded(calls: seq<Call>, models: nat, retries: nat)
    requires InOrder(calls) && forall i :: 0 <= i < |calls| ==> calls[i].model < models && calls[i].attempt <= retries
    ensures |calls| <= models * (retries + 1)
  {
    if calls != [] {
      PlaceGrows(calls, retries, |calls| - 1);
      var last := calls[|calls| - 1];
      PlacesInOrder(last, Call(models, 0), retries + 1);
    }
  }

  lemma {:induction false} PlaceGrows(calls: seq<Call>, retries: nat, i: nat)
    requires InOrder(calls) && i < |calls| && forall k :: 0 <= k < |calls| ==> calls[k].attempt <= retries
    ensures i <= calls[i].model * (retries + 1) + calls[i].attempt
  {
    if i > 0 {
      PlaceGrows(calls, retries, i - 1);
      PlacesInOrder(calls[i - 1], calls[i], retries + 1);
    }
  }

  lemma PlacesInOrder(c: Call, d: Call, n: nat)
    requires Before(c, d) && c.attempt < n
    ensures c.model * n + c.attempt < d.model * n + d.attempt
  {
    if c.model < d.model {
      Times(c.model + 1, d.model, n);
      assert (c.model + 1) * n == c.model * n + n;
    }
  }

  lemma Times(x: nat, y: nat, n: nat)
    requires x <= y
    ensures x * n <= y * n
  {
  }

  /** The call failed in passing, or the body drew a complaint: there is something to hope for from the same model. */
  predicate Hopeful(a: Answer) {
    a == Failed(true) || (a.Body? && a.complaint.Some? && a.complaint.value != "")
  }

  lemma {:induction false} HopefulIsRetried(a: Answer)
    ensures Hopeful(a) <==> Retried(a)
    ensures Accepted(a) <==> a != Failed(true) && a != Failed(false) && !Hopeful(a)
  {
  }

  lemma {:induction false} NextAttempt(answers: (nat, nat) -> Answer, m: nat, a: nat, retries: int)
    requires Made(answers, m, a, retries)
    ensures Made(answers, m, a + 1, retries) <==> a < retries && Hopeful(answers(m, a))
  {
    HopefulIsRetried(answers(m, a));
  }

  /** The calls, told by the answers: the first model is asked first; a model is asked again exactly after a failure in
      passing or a complaint, while it has retries left; the next one exactly when no answer so far would do; and the result
      is the one answer that did. */
  method AsksAgainIff(models: nat, retries: nat, answers: (nat, nat) -> Answer) returns (winner: Option<Call>, calls: seq<Call>)
    ensures models > 0 ==> Call(0, 0) in calls
    ensures forall c :: c in calls ==> c.model < models && c.attempt <= retries
    ensures forall c :: c in calls ==>
              (Call(c.model, c.attempt + 1) in calls <==> c.attempt < retries && Hopeful(answers(c.model, c.attempt)))
    ensures forall m: nat :: m + 1 < models && Call(m, 0) in calls ==>
              (Call(m + 1, 0) in calls <==> winner.None? || winner.value.model > m)
    ensures winner.Some? ==> winner.value in calls && Passes(answers(winner.value.model, winner.value.attempt))
    ensures forall c :: c in calls && Passes(answers(c.model, c.attempt)) ==> winner == Some(c)
  {
    winner, calls := CallWithFallback(models, retries, answers);
    forall c | c in calls
      ensures Call(c.model, c.attempt + 1) in calls <==> c.attempt < retries && Hopeful(answers(c.model, c.attempt))
    {
      NextAttempt(answers, c.model, c.attempt, retries);
      HopefulIsRetried(answers(c.model, c.attempt));
      if winner.Some? && c.model == winner.value.model && c.attempt < winner.value.attempt {
        assert Retried(answers(c.model, c.attempt));
      }
    }
    forall c | c in calls && Passes(answers(c.model, c.attempt)) ensures winner == Some(c) {
      assert Made(answers, c.model, c.attempt, retries);
      assert winner.None? ==> GivesUp(answers, c.model, retries);
      if winner.Some? {
        OneWinner(answers, retries, c, winner.value);
      }
    }
    if winner.Some? {
      assert forall k: nat :: k < winner.value.model ==> GivesUp(answers, k, retries);
    }
  }

  /** A body without a complaint, or with an empty one. */
  predicate Passes(a: Answer) {
    a.Body? && (a.complaint == None || a.complaint == Some(""))
  }
}
