/** Deadline recovery of frontend tool calls: sdk/agui_clienttool_timeout.go. */
module ClientToolTimeout {
  import opened Common

  datatype Deadline = Unbounded | Unreadable | Until(time: int)

  /** `metadata` is absent when it cannot be read; `verifiable` is the verdict of the answer's own
      check against the call. */
  datatype Call = Call(id: string, protocolId: string, toolMessage: string, conversation: string, turn: string,
                       name: string, assistant: string, deadline: Deadline, metadata: Option<string>, verifiable: bool)
  {
    /** aguiPendingCallID */
    function Key(): string {
      if protocolId != "" then protocolId else id
    }
  }

  datatype Progress = Waiting | TimedOut | Other

  /** The tool message of a call, as now stored. */
  datatype Row = Row(conversation: string, turn: string, role: string, op: string, tool: string, parent: string, progress: Progress)

  type Rows = map<string, Row>

  /** The answer synthesized for an expired call; all else in it is constant. */
  datatype Answer = Answer(key: string, metadata: string)

  datatype Retained = Retained(readable: bool, answers: seq<Answer>)

  /** Which run, if any, already resumes the interrupted one. */
  datatype Successor = Nobody | Another | Timeout(retained: Retained)

  /** The interrupted run: `current` says it is stored as the caller holds it, `owned` that the
      conversation belongs to the caller. */
  datatype Prior = Prior(conversation: string, turn: string, current: bool, owned: bool, successor: Successor)

  datatype Pending = Pending(tools: seq<Call>, interrupts: seq<string>, dependencies: nat)

  datatype Fault = Conflict | OwnerMismatch | InputMismatch | IdentityMismatch | BadDeadline | CallMismatch | BadMetadata | BadAnswer

  datatype Verdict = NotDue | Due(answers: seq<Answer>) | Failed(fault: Fault)

  // ---------- the scan of the pending calls ----------

  predicate Identified(prior: Prior, call: Call) {
    call.Key() != "" && call.id != "" && call.toolMessage != "" && call.conversation == prior.conversation && call.turn == prior.turn
  }

  predicate Located(call: Call, rows: Rows) {
    && call.toolMessage in rows
    && var row := rows[call.toolMessage];
       && row.conversation == call.conversation && row.turn == call.turn && row.role == "tool"
       && row.op == call.id && row.tool == call.name
       && (call.assistant != "" ==> row.parent == call.assistant)
  }

  predicate Considered(retained: Option<set<string>>, call: Call) {
    retained.None? || call.Key() in retained.value
  }

  predicate Expired(call: Call, now: int) {
    call.deadline.Until? && call.deadline.time <= now
  }

  /** What is wrong with answering an expired call; NotDue when it has another result already. */
  function Obstacle(call: Call, rows: Rows): (r: Option<Verdict>)
    ensures r.Some? ==> !r.value.Due?
  {
    if !Located(call, rows) then Some(Failed(CallMismatch))
    else if rows[call.toolMessage].progress == Other then Some(NotDue)
    else if call.metadata.None? then Some(Failed(BadMetadata))
    else if !call.verifiable then Some(Failed(BadAnswer))
    else None
  }

  function AnswerTo(call: Call): Answer {
    Answer(call.Key(), if call.metadata.Some? then call.metadata.value else "")
  }

  function Collect(prior: Prior, calls: seq<Call>, seen: set<string>, retained: Option<set<string>>, rows: Rows, now: int)
    : (r: Result<seq<Answer>, Verdict>)
    ensures r.Err? ==> !r.error.Due?
    decreases |calls|
  {
    if calls == [] then Ok([]) else
      var call := calls[0];
      if !Identified(prior, call) || call.Key() in seen then Err(Failed(IdentityMismatch))
      else
        var more := Collect(prior, calls[1..], seen + {call.Key()}, retained, rows, now);
        if !Considered(retained, call) then more
        else if call.deadline.Unreadable? then Err(Failed(BadDeadline))
        else if !Expired(call, now) then more
        else if Obstacle(call, rows).Some? then Err(Obstacle(call, rows).value)
        else if more.Ok? then Ok([AnswerTo(call)] + more.value) else more
  }

  function Keys(answers: seq<Answer>): set<string> {
    set answer | answer in answers :: answer.key
  }

  predicate Distinct(answers: seq<Answer>) {
    forall i, j | 0 <= i < j < |answers| :: answers[i].key != answers[j].key
  }

  /** prepareClientToolTimeout */
  function Prepare(prior: Prior, pending: Pending, rows: Rows, now: int): Verdict {
    if prior.turn == "" || pending.tools == [] || pending.dependencies > 0 then NotDue
    else if !prior.current then Failed(Conflict)
    else if !prior.owned then Failed(OwnerMismatch)
    else match prior.successor
         case Another => NotDue
         case Nobody =>
           (match Collect(prior, pending.tools, {}, None, rows, now)
            case Err(verdict) => verdict
            case Ok(answers) => if answers == [] then NotDue else Due(answers))
         case Timeout(retained) =>
           if !retained.readable || retained.answers == [] || !Distinct(retained.answers) then Failed(InputMismatch)
           else match Collect(prior, pending.tools, {}, Some(Keys(retained.answers)), rows, now)
                case Err(verdict) => verdict
                case Ok(answers) =>
                  if answers == [] then NotDue
                  else if answers != retained.answers then Failed(InputMismatch)
                  else Due(answers)
  }

  /** The loops of prepareClientToolTimeout. */
  method PrepareTimeout(prior: Prior, pending: Pending, rows: Rows, now: int) returns (r: Verdict)
    ensures r == Prepare(prior, pending, rows, now)
  {
    if prior.turn == "" || |pending.tools| == 0 || pending.dependencies > 0 {
      return NotDue;
    }
    if !prior.current {
      return Failed(Conflict);
    }
    if !prior.owned {
      return Failed(OwnerMismatch);
    }
    if prior.successor.Another? {
      return NotDue;
    }
    var retained: Option<set<string>> := None;
    if prior.successor.Timeout? {
      var input := prior.successor.retained;
      if !input.readable || |input.answers| == 0 {
        return Failed(InputMismatch);
      }
      var ids, duplicate := RetainedIds(input.answers);
      if duplicate {
        return Failed(InputMismatch);
      }
      retained := Some(ids);
    }
    var scan := ScanCalls(prior, pending.tools, retained, rows, now);
    if scan.Err? {
      return scan.error;
    }
    if |scan.value| == 0 {
      return NotDue;
    }
    if prior.successor.Timeout? && scan.value != prior.successor.retained.answers {
      return Failed(InputMismatch);
    }
    return Due(scan.value);
  }

  method RetainedIds(answers: seq<Answer>) returns (ids: set<string>, duplicate: bool)
    ensures duplicate <==> !Distinct(answers)
    ensures !duplicate ==> ids == Keys(answers)
  {
    ids := {};
    for i := 0 to |answers|
      invariant ids == Keys(answers[..i]) && Distinct(answers[..i])
    {
      if answers[i].key in ids {
        return ids, true;
      }
      ids := ids + {answers[i].key};
      assert answers[..i + 1] == answers[..i] + [answers[i]];
    }
    assert answers[..|answers|] == answers;
    duplicate := false;
  }

  method ScanCalls(prior: Prior, calls: seq<Call>, retained: Option<set<string>>, rows: Rows, now: int)
    returns (r: Result<seq<Answer>, Verdict>)
    ensures r == Collect(prior, calls, {}, retained, rows, now)
  {
    var answers: seq<Answer>, seen: set<string> := [], {};
    ghost var whole := Collect(prior, calls, {}, retained, rows, now);
    assert calls[0..] == calls && forall more: seq<Answer> :: [] + more == more;
    for i := 0 to |calls|
      invariant var more := Collect(prior, calls[i..], seen, retained, rows, now);
                whole == if more.Ok? then Ok(answers + more.value) else more
    {
      hide Identified, Located;
      var call := calls[i];
      assert calls[i..][0] == call && calls[i..][1..] == calls[i + 1..];
      assert forall head: Answer, more: seq<Answer> :: (answers + [head]) + more == answers + ([head] + more);
      if !Identified(prior, call) || call.Key() in seen {
        return Err(Failed(IdentityMismatch));
      }
      seen := seen + {call.Key()};
      if retained.Some? && call.Key() !in retained.value {
        continue;
      }
      if call.deadline.Unbounded? {
        continue;
      }
      if call.deadline.Unreadable? {
        return Err(Failed(BadDeadline));
      }
      if now < call.deadline.time {
        continue;
      }
      if !Located(call, rows) {
        return Err(Failed(CallMismatch));
      }
      if rows[call.toolMessage].progress == Other {
        return Err(NotDue);
      }
      if call.metadata.None? {
        return Err(Failed(BadMetadata));
      }
      if !call.verifiable {
        return Err(Failed(BadAnswer));
      }
      answers := answers + [Answer(call.Key(), call.metadata.value)];
    }
    assert answers + [] == answers;
    return Ok(answers);
  }

  // ---------- what the scan means ----------

  /** The calls the scan answers, in order. */
  function ExpiredCalls(calls: seq<Call>, retained: Option<set<string>>, now: int): seq<Call>
    decreases |calls|
  {
    if calls == [] then []
    else (if Considered(retained, calls[0]) && Expired(calls[0], now) then [calls[0]] else []) + ExpiredCalls(calls[1..], retained, now)
  }

  function AnswersTo(calls: seq<Call>): (r: seq<Answer>)
    ensures |r| == |calls| && forall i | 0 <= i < |r| :: r[i] == AnswerTo(calls[i])
  {
    seq(|calls|, i requires 0 <= i < |calls| => AnswerTo(calls[i]))
  }

  ghost predicate WellFormed(prior: Prior, calls: seq<Call>) {
    && (forall i | 0 <= i < |calls| :: Identified(prior, calls[i]))
    && (forall i, j | 0 <= i < j < |calls| :: calls[i].Key() != calls[j].Key())
  }

  predicate Scannable(call: Call, retained: Option<set<string>>, rows: Rows, now: int) {
    Considered(retained, call) ==> !call.deadline.Unreadable? && (Expired(call, now) ==> Obstacle(call, rows).None?)
  }

  ghost predicate Fits(prior: Prior, calls: seq<Call>, seen: set<string>, retained: Option<set<string>>, rows: Rows, now: int)
    decreases |calls|
  {
    calls != [] ==>
      && Identified(prior, calls[0]) && calls[0].Key() !in seen && Scannable(calls[0], retained, rows, now)
      && Fits(prior, calls[1..], seen + {calls[0].Key()}, retained, rows, now)
  }

  lemma {:induction false} CollectFits(prior: Prior, calls: seq<Call>, seen: set<string>, retained: Option<set<string>>,
                                       rows: Rows, now: int)
    ensures var r := Collect(prior, calls, seen, retained, rows, now);
            && (r.Ok? <==> Fits(prior, calls, seen, retained, rows, now))
            && (r.Ok? ==> r.value == AnswersTo(ExpiredCalls(calls, retained, now)))
    decreases |calls|
  {
    hide Identified, Obstacle;
    if calls != [] {
      var call, rest := calls[0], calls[1..];
      CollectFits(prior, rest, seen + {call.Key()}, retained, rows, now);
      assert AnswersTo([call] + ExpiredCalls(rest, retained, now)) == [AnswerTo(call)] + AnswersTo(ExpiredCalls(rest, retained, now));
    }
  }

  lemma {:induction false} FitsMeans(prior: Prior, calls: seq<Call>, seen: set<string>, retained: Option<set<string>>,
                                     rows: Rows, now: int)
    ensures Fits(prior, calls, seen, retained, rows, now) <==>
              && WellFormed(prior, calls) && (forall call | call in calls :: call.Key() !in seen)
              && forall call | call in calls :: Scannable(call, retained, rows, now)
    decreases |calls|
  {
    hide Identified, Scannable;
    if calls != [] {
      var call, rest := calls[0], calls[1..];
      FitsMeans(prior, rest, seen + {call.Key()}, retained, rows, now);
      assert calls == [call] + rest;
      hide WellFormed;
      WellFormedCons(prior, call, rest);
      assert forall c | c in calls :: c == call || c in rest;
      assert forall c | c in rest :: c in calls;
      assert call in calls;
    }
  }

  /** The scan succeeds exactly when the calls are properly identified, the deadlines it considers
      are readable and every expired one can be answered; it answers exactly the expired ones. */
  lemma CollectMeans(prior: Prior, calls: seq<Call>, retained: Option<set<string>>, rows: Rows, now: int)
    ensures var r := Collect(prior, calls, {}, retained, rows, now);
            && (r.Ok? <==> WellFormed(prior, calls) && forall call | call in calls :: Scannable(call, retained, rows, now))
            && (r.Ok? ==> r.value == AnswersTo(ExpiredCalls(calls, retained, now)))
  {
    CollectFits(prior, calls, {}, retained, rows, now);
    FitsMeans(prior, calls, {}, retained, rows, now);
  }

  lemma WellFormedCons(prior: Prior, call: Call, rest: seq<Call>)
    ensures WellFormed(prior, [call] + rest) <==>
              Identified(prior, call) && WellFormed(prior, rest) && forall c | c in rest :: c.Key() != call.Key()
  {
    var calls := [call] + rest;
    assert forall i | 0 <= i < |rest| :: calls[i + 1] == rest[i];
    if WellFormed(prior, calls) {
      assert calls[0] == call;
      forall i, j | 0 <= i < j < |rest| ensures rest[i].Key() != rest[j].Key() {
        assert calls[i + 1] == rest[i] && calls[j + 1] == rest[j];
      }
      forall c | c in rest ensures c.Key() != call.Key() {
        var i :| 0 <= i < |rest| && rest[i] == c;
        assert calls[i + 1] == c && calls[0] == call;
      }
    }
  }

  lemma DueFromScan(prior: Prior, pending: Pending, rows: Rows, now: int)
    requires prior.successor == Nobody
    ensures var verdict, scan := Prepare(prior, pending, rows, now), Collect(prior, pending.tools, {}, None, rows, now);
            && (verdict.Due? ==> scan == Ok(verdict.answers) && verdict.answers != []
                                 && prior.turn != "" && prior.current && prior.owned && pending.tools != [] && pending.dependencies == 0)
            && (prior.turn != "" && prior.current && prior.owned && pending.tools != [] && pending.dependencies == 0
                && scan.Ok? && scan.value != [] ==>
                  verdict.Due?)
  {
    hide Collect;
  }

  /** With nobody resuming the run, a timeout is due exactly when the calls are well formed, every
      expired one can be answered, and some call has expired. */
  lemma DueExactly(prior: Prior, pending: Pending, rows: Rows, now: int)
    requires prior.successor == Nobody && prior.turn != "" && prior.current && prior.owned && pending.dependencies == 0
    ensures Prepare(prior, pending, rows, now).Due? <==>
              && WellFormed(prior, pending.tools)
              && (forall call | call in pending.tools :: Scannable(call, None, rows, now))
              && exists call :: call in pending.tools && Expired(call, now)
    ensures Prepare(prior, pending, rows, now).Due? ==>
              Prepare(prior, pending, rows, now).answers == AnswersTo(ExpiredCalls(pending.tools, None, now))
  {
    hide Prepare, Collect, WellFormed, Scannable, Expired;
    DueFromScan(prior, pending, rows, now);
    CollectMeans(prior, pending.tools, None, rows, now);
    ExpiredMembers(pending.tools, None, now);
    var expired := ExpiredCalls(pending.tools, None, now);
    assert expired != [] ==> expired[0] in expired;
    assert expired == [] <==> AnswersTo(expired) == [];
  }

  lemma {:induction false} ExpiredMembers(calls: seq<Call>, retained: Option<set<string>>, now: int)
    ensures forall call :: call in ExpiredCalls(calls, retained, now) <==> call in calls && Considered(retained, call) && Expired(call, now)
    decreases |calls|
  {
    if calls != [] {
      ExpiredMembers(calls[1..], retained, now);
      assert calls == [calls[0]] + calls[1..];
    }
  }

  // ---------- recomputing an admitted timeout ----------

  predicate SameChoice(call: Call, first: Option<set<string>>, t0: int, second: Option<set<string>>, t1: int) {
    Considered(first, call) && Expired(call, t0) <==> Considered(second, call) && Expired(call, t1)
  }

  lemma {:induction false} SameChoices(calls: seq<Call>, first: Option<set<string>>, t0: int, second: Option<set<string>>, t1: int)
    requires forall call | call in calls :: SameChoice(call, first, t0, second, t1)
    ensures ExpiredCalls(calls, first, t0) == ExpiredCalls(calls, second, t1)
    decreases |calls|
  {
    if calls != [] {
      assert SameChoice(calls[0], first, t0, second, t1);
      SameChoices(calls[1..], first, t0, second, t1);
    }
  }

  lemma RetainedKeys(prior: Prior, calls: seq<Call>, now: int, call: Call)
    requires WellFormed(prior, calls) && call in calls
    ensures var keys := Keys(AnswersTo(ExpiredCalls(calls, None, now)));
            call.Key() in keys <==> Expired(call, now)
  {
    var expired := ExpiredCalls(calls, None, now);
    var answers := AnswersTo(expired);
    ExpiredMembers(calls, None, now);
    if Expired(call, now) {
      var i :| 0 <= i < |expired| && expired[i] == call;
      assert answers[i] in answers && answers[i].key == call.Key();
    }
    if call.Key() in Keys(answers) {
      var answer :| answer in answers && answer.key == call.Key();
      var i :| 0 <= i < |answers| && answers[i] == answer;
      assert expired[i] in expired && expired[i].Key() == call.Key();
      assert expired[i] == call;
    }
  }

  lemma {:induction false} ExpiredDistinct(prior: Prior, calls: seq<Call>, now: int)
    requires WellFormed(prior, calls)
    ensures Distinct(AnswersTo(ExpiredCalls(calls, None, now)))
    decreases |calls|
  {
    if calls != [] {
      var call, rest := calls[0], calls[1..];
      assert calls == [call] + rest;
      WellFormedCons(prior, call, rest);
      ExpiredDistinct(prior, rest, now);
      ExpiredMembers(rest, None, now);
      var more := ExpiredCalls(rest, None, now);
      assert Distinct(AnswersTo(more));
      forall i, j | 0 <= i < j < |ExpiredCalls(calls, None, now)|
        ensures AnswersTo(ExpiredCalls(calls, None, now))[i].key != AnswersTo(ExpiredCalls(calls, None, now))[j].key
      {
        if Expired(call, now) {
          assert ExpiredCalls(calls, None, now) == [call] + more;
          assert more[j - 1] in more;
          if i > 0 {
            assert AnswersTo(more)[i - 1].key != AnswersTo(more)[j - 1].key;
          }
        } else {
          assert ExpiredCalls(calls, None, now) == more;
          assert AnswersTo(more)[i].key != AnswersTo(more)[j].key;
        }
      }
    }
  }

  function Resumed(prior: Prior, answers: seq<Answer>): Prior {
    prior.(successor := Timeout(Retained(true, answers)))
  }

  /** Once the timeout was admitted with its answers, recomputing it at any later time gives
      exactly those answers, however many further calls have expired since, if and only if the
      rows of the answered calls can still be answered. */
  lemma RetainedAnswersAreStable(prior: Prior, pending: Pending, rows: Rows, now: int, laterRows: Rows, later: int)
    requires prior.successor == Nobody && Prepare(prior, pending, rows, now).Due? && now <= later
    ensures var answers := Prepare(prior, pending, rows, now).answers;
            Prepare(Resumed(prior, answers), pending, laterRows, later) == Due(answers) <==>
              forall call | call in pending.tools && call.Key() in Keys(answers) :: Obstacle(call, laterRows).None?
  {
    var calls, answers := pending.tools, Prepare(prior, pending, rows, now).answers;
    var retained, again := Some(Keys(answers)), Resumed(prior, answers);
    CollectMeans(prior, calls, None, rows, now);
    CollectMeans(again, calls, retained, laterRows, later);
    forall call | call in calls
      ensures SameChoice(call, None, now, retained, later)
      ensures call.Key() in Keys(answers) ==> Expired(call, later)
    {
      RetainedKeys(prior, calls, now, call);
    }
    SameChoices(calls, None, now, retained, later);
    ExpiredDistinct(prior, calls, now);
    assert WellFormed(again, calls) by {
      assert forall call :: Identified(again, call) == Identified(prior, call);
    }
    if forall call | call in calls && call.Key() in Keys(answers) :: Obstacle(call, laterRows).None? {
      forall call | call in calls ensures Scannable(call, retained, laterRows, later) {
      }
    } else {
      var call :| call in calls && call.Key() in Keys(answers) && Obstacle(call, laterRows).Some?;
      assert !Scannable(call, retained, laterRows, later);
    }
  }

  // ---------- finishing the wait ----------

  /** The items whose key has no answer. */
  function Kept<T>(items: seq<T>, key: T -> string, done: set<string>): seq<T>
    decreases |items|
  {
    if items == [] then []
    else (if key(items[0]) in done then [] else [items[0]]) + Kept(items[1..], key, done)
  }

  /** The items whose key has an answer. */
  function Taken<T>(items: seq<T>, key: T -> string, done: set<string>): seq<T>
    decreases |items|
  {
    if items == [] then []
    else (if key(items[0]) in done then [items[0]] else []) + Taken(items[1..], key, done)
  }

  function CallKey(call: Call): string { call.Key() }

  /** An interrupt is its own key. */
  function Itself(id: string): string { id }

  /** What the successor's journal ends with: the interrupts still open, or else the calls the
      frontend still owes. */
  datatype Outcome = Interrupt(ids: seq<string>) | Success(pendingCalls: seq<string>)

  function KeysOf(calls: seq<Call>): (r: seq<string>)
    ensures |r| == |calls| && forall i | 0 <= i < |r| :: r[i] == calls[i].Key()
  {
    seq(|calls|, i requires 0 <= i < |calls| => calls[i].Key())
  }

  method Remaining<T>(items: seq<T>, key: T -> string, done: set<string>) returns (left: seq<T>)
    ensures left == Kept(items, key, done)
  {
    left := [];
    assert items[0..] == items;
    for i := 0 to |items|
      invariant Kept(items, key, done) == left + Kept(items[i..], key, done)
    {
      KeptStep(items[i..], key, done);
      assert items[i..][0] == items[i] && items[i..][1..] == items[i + 1..];
      if key(items[i]) !in done {
        assert left + ([items[i]] + Kept(items[i + 1..], key, done)) == (left + [items[i]]) + Kept(items[i + 1..], key, done);
        left := left + [items[i]];
      }
    }
    assert items[|items|..] == [] && left + [] == left;
  }

  lemma KeptStep<T>(items: seq<T>, key: T -> string, done: set<string>)
    ensures items == [] ==> Kept(items, key, done) == [] && Taken(items, key, done) == []
    ensures items != [] ==>
              if key(items[0]) in done then
                && Kept(items, key, done) == Kept(items[1..], key, done)
                && Taken(items, key, done) == [items[0]] + Taken(items[1..], key, done)
              else
                && Kept(items, key, done) == [items[0]] + Kept(items[1..], key, done)
                && Taken(items, key, done) == Taken(items[1..], key, done)
  {
  }

  /** finishClientToolTimeoutWait: nothing to do (None) once no wait remains. */
  method FinishWait(timeoutRun: bool, answers: seq<Answer>, pending: Pending) returns (r: Option<(Pending, Outcome)>)
    ensures var calls, ids := Kept(pending.tools, CallKey, Keys(answers)), Kept(pending.interrupts, Itself, Keys(answers));
            if !timeoutRun || pending.dependencies > 0 || (calls == [] && ids == []) then r == None
            else r == Some((Pending(calls, ids, 0), if ids == [] then Success(KeysOf(calls)) else Interrupt(ids)))
  {
    if !timeoutRun || pending.dependencies > 0 {
      return None;
    }
    var done: set<string> := {};
    for i := 0 to |answers|
      invariant done == Keys(answers[..i])
    {
      done := done + {answers[i].key};
      assert answers[..i + 1] == answers[..i] + [answers[i]];
    }
    assert answers[..|answers|] == answers;
    var calls := Remaining(pending.tools, CallKey, done);
    var ids := Remaining(pending.interrupts, Itself, done);
    if |calls| == 0 && |ids| == 0 {
      return None;
    }
    var outcome := Interrupt(ids);
    if |ids| == 0 {
      var owed: seq<string> := [];
      for i := 0 to |calls|
        invariant owed == KeysOf(calls)[..i]
      {
        owed := owed + [calls[i].Key()];
      }
      assert KeysOf(calls)[..|calls|] == KeysOf(calls);
      outcome := Success(owed);
    }
    return Some((Pending(calls, ids, 0), outcome));
  }

  /** The order of `part` is that of `whole`. */
  predicate InOrder<T(==)>(part: seq<T>, whole: seq<T>)
    decreases |whole|
  {
    part == [] || (whole != [] && ((part[0] == whole[0] && InOrder(part[1..], whole[1..])) || InOrder(part, whole[1..])))
  }

  /** The wait, its calls and its interrupts alike, is split, in order, into what is answered and
      what remains: none is dropped and none is duplicated. */
  lemma {:induction false} FinishSplits<T>(items: seq<T>, key: T -> string, done: set<string>)
    ensures multiset(Kept(items, key, done)) + multiset(Taken(items, key, done)) == multiset(items)
    ensures InOrder(Kept(items, key, done), items) && InOrder(Taken(items, key, done), items)
    decreases |items|
  {
    hide InOrder, Kept, Taken;
    KeptStep(items, key, done);
    if items != [] {
      var item, rest := items[0], items[1..];
      FinishSplits(rest, key, done);
      assert items == [item] + rest;
      if key(item) in done {
        Splits(item, rest, Taken(rest, key, done), Kept(rest, key, done));
      } else {
        Splits(item, rest, Kept(rest, key, done), Taken(rest, key, done));
      }
    } else {
      Nothing(items);
    }
  }

  lemma Nothing<T>(items: seq<T>)
    ensures InOrder([], items)
  {
  }

  /** A call or an interrupt remains exactly when it has no answer. */
  lemma {:induction false} FinishMembers<T>(items: seq<T>, key: T -> string, done: set<string>)
    ensures forall item <- items :: if key(item) in done then item in Taken(items, key, done) else item in Kept(items, key, done)
    ensures forall item <- Kept(items, key, done) :: item in items && key(item) !in done
    ensures forall item <- Taken(items, key, done) :: item in items && key(item) in done
    decreases |items|
  {
    if items != [] {
      FinishMembers(items[1..], key, done);
      assert items == [items[0]] + items[1..];
    }
  }

  lemma Splits<T>(first: T, rest: seq<T>, mine: seq<T>, others: seq<T>)
    requires InOrder(mine, rest) && InOrder(others, rest)
    requires multiset(mine) + multiset(others) == multiset(rest)
    ensures InOrder([first] + mine, [first] + rest) && InOrder(others, [first] + rest)
    ensures multiset([first] + mine) + multiset(others) == multiset([first] + rest)
  {
    assert ([first] + rest)[1..] == rest && ([first] + mine)[1..] == mine;
  }

  /** The finisher removes exactly the calls the timeout answered, in the order of its answers. */
  lemma FinishTakesTheExpired(prior: Prior, pending: Pending, rows: Rows, now: int)
    requires prior.successor == Nobody && Prepare(prior, pending, rows, now).Due?
    ensures var answers := Prepare(prior, pending, rows, now).answers;
            && Taken(pending.tools, CallKey, Keys(answers)) == ExpiredCalls(pending.tools, None, now)
            && AnswersTo(Taken(pending.tools, CallKey, Keys(answers))) == answers
            && forall call | call in Kept(pending.tools, CallKey, Keys(answers)) :: !Expired(call, now)
  {
    var calls, answers := pending.tools, Prepare(prior, pending, rows, now).answers;
    DueFromScan(prior, pending, rows, now);
    CollectMeans(prior, calls, None, rows, now);
    forall call | call in calls ensures call.Key() in Keys(answers) <==> Expired(call, now) {
      RetainedKeys(prior, calls, now, call);
    }
    TakenIsExpired(calls, Keys(answers), now);
    FinishMembers(calls, CallKey, Keys(answers));
  }

  lemma {:induction false} TakenIsExpired(calls: seq<Call>, done: set<string>, now: int)
    requires forall call | call in calls :: call.Key() in done <==> Expired(call, now)
    ensures Taken(calls, CallKey, done) == ExpiredCalls(calls, None, now)
    decreases |calls|
  {
    if calls != [] {
      TakenIsExpired(calls[1..], done, now);
    }
  }

  // ---------- one timeout after another ----------

  /** The keys a timeout answers at one moment. */
  function Round(prior: Prior, calls: seq<Call>, rows: Rows, now: int): set<string> {
    var verdict := Prepare(prior, Pending(calls, [], 0), rows, now);
    if verdict.Due? then Keys(verdict.answers) else {}
  }

  /** Successive timeouts at given moments, each on what the one before left waiting: the calls
      answered so far and the calls still pending. */
  function Rounds(prior: Prior, calls: seq<Call>, moments: seq<(Rows, int)>): (seq<Call>, seq<Call>)
    decreases |moments|
  {
    if moments == [] then ([], calls)
    else
      var done := Round(prior, calls, moments[0].0, moments[0].1);
      var later := Rounds(prior, Kept(calls, CallKey, done), moments[1..]);
      (Taken(calls, CallKey, done) + later.0, later.1)
  }

  predicate Bounded(calls: seq<Call>) {
    forall call | call in calls :: call.deadline.Until?
  }

  /** Over any number of rounds every call is either answered, once, or still pending, and only
      calls with a deadline are ever answered. */
  lemma {:induction false} RoundsAnswerOnce(prior: Prior, calls: seq<Call>, moments: seq<(Rows, int)>)
    requires prior.successor == Nobody
    ensures var rounds := Rounds(prior, calls, moments);
            multiset(rounds.0) + multiset(rounds.1) == multiset(calls) && Bounded(rounds.0)
    decreases |moments|
  {
    hide Round, Kept, Taken;
    if moments != [] {
      var done := Round(prior, calls, moments[0].0, moments[0].1);
      FinishSplits(calls, CallKey, done);
      RoundAnswersBounded(prior, calls, moments[0].0, moments[0].1);
      RoundsAnswerOnce(prior, Kept(calls, CallKey, done), moments[1..]);
    }
  }

  lemma RoundAnswersBounded(prior: Prior, calls: seq<Call>, rows: Rows, now: int)
    requires prior.successor == Nobody
    ensures Bounded(Taken(calls, CallKey, Round(prior, calls, rows, now)))
  {
    hide Prepare;
    if Prepare(prior, Pending(calls, [], 0), rows, now).Due? {
      FinishTakesTheExpired(prior, Pending(calls, [], 0), rows, now);
      ExpiredMembers(calls, None, now);
    } else {
      FinishMembers(calls, CallKey, {});
    }
  }
}
