/** The reminder batch pass of EventRegistrationReminderController.

    `Invoke` checks the shared secret and hands over to `Run`. `Run` checks the
    kill switch, then walks the calendar -> user grouping that the data
    collector returns for registrations in state "not confirmed". For every
    user it counts the user, resolves the calendar's reminder notification,
    counts the attempt, stops the whole pass once the attempt counter exceeds
    maxNotificationsPerRequest, sends, and on success records the reminder in
    the ledger (insert, then delete the pair's other rows).

    The collaborators whose code is not part of this model (data collector,
    guest-list generator, notification transport, the calendar, notification
    and user tables) are given as an `Env` value of lookups and total
    functions. `VisitUser` / `VisitAll` state the pass as a fold over the
    flattened traversal; `Controller.Run` is the nested loop, proved equal to it. */
module ReminderController {
  import opened Wrappers
  import opened NotificationLedger

  type CalendarId = int
  type UserId = int

  /** A user's registration details as the data collector groups them; only
      the guest-list generator looks inside. */
  type Payload = map<string, string>

  datatype UserEntry = UserEntry(userId: UserId, payload: Payload)

  /** The value stored under a calendar key: a user array, or something that
      is not an array (skipped by the pass). */
  datatype Users = NotArray | UserList(entries: seq<UserEntry>)

  datatype CalendarEntry = CalendarEntry(calendarId: CalendarId, users: Users)

  /** One step of the traversal: a user met under a calendar. */
  datatype Visit = Visit(calendarId: CalendarId, user: UserEntry)

  /** A notification-center notification, found by its primary key. */
  datatype Notification = Notification(id: int)

  /** What NotificationHelper::send returns: a scalar (never a delivery,
      whatever its value) or an array. */
  datatype SendResult = Scalar | ResultArray(items: seq<int>)

  /** One call of NotificationHelper::send, with the arguments it received and
      what it returned. The guest list is the only token. */
  datatype SendCall = SendCall(
    notification: Notification,
    userId: UserId,
    calendarId: CalendarId,
    registrations: string,
    language: string,
    result: SendResult)

  /** The controller's configuration. `allowWebScope` is stored but never read. */
  datatype Settings = Settings(
    disable: bool,
    sid: string,
    allowWebScope: bool,
    maxNotificationsPerRequest: int,
    fallbackLanguage: string)

  /** The collaborators, as seen during one pass.
      data:           DataCollector::getData(SUBSCRIPTION_NOT_CONFIRMED), in its order
      reminderColumn: tl_calendar.sendReminderNotification by calendar id (absent: no row)
      notifications:  the notifications by primary key
      userNames:      tl_user.name by user id (absent: no row)
      generate:       NotificationGenerator::generate
      deliver:        NotificationHelper::send */
  datatype Env = Env(
    data: seq<CalendarEntry>,
    reminderColumn: map<CalendarId, int>,
    notifications: map<int, Notification>,
    userNames: map<UserId, string>,
    generate: (Payload, UserId) -> string,
    deliver: (Notification, UserId, CalendarId, string, string) -> SendResult)

  datatype Body = Text(text: string) | Summary(users: int, notifications: int)

  /** An HTTP response: status code and body. A summary stands for the line
      "Traversed <users> users and send <notifications> notifications. ...";
      its runtime part is not modelled. */
  datatype Response = Response(status: int, body: Body)

  const HttpOk := 200
  const HttpForbidden := 403
  const DenialText := "You're not  allowed. Check your sid, please."
  const DisabledText := "Application is disabled."

  /** The state a pass carries: both counters, the ledger and the sends made
      so far in this pass. */
  datatype Pass = Pass(userCount: int, emailCount: int, table: Table, sent: seq<SendCall>)

  /** A pass either goes on or has been stopped by the cap (`break 2`). */
  datatype Step = Continue(pass: Pass) | Abort(pass: Pass)

  /** What one invocation leaves behind: the response, the ledger and the sends. */
  datatype Outcome = Outcome(response: Response, table: Table, sent: seq<SendCall>)

  /** getNotification: the calendar's sendReminderNotification value, when
      truthy (non-zero), resolved to the notification with that key. */
  function GetNotification(env: Env, calendarId: CalendarId): (r: Option<Notification>)
    ensures r.Some? <==>
      calendarId in env.reminderColumn && env.reminderColumn[calendarId] != 0
      && env.reminderColumn[calendarId] in env.notifications
    ensures r.Some? ==> r.value == env.notifications[env.reminderColumn[calendarId]]
  {
    var id := if calendarId in env.reminderColumn then env.reminderColumn[calendarId] else 0;
    if id != 0 && id in env.notifications then Some(env.notifications[id]) else None
  }

  /** `!empty($arr) && is_array($arr)`. */
  predicate Delivered(r: SendResult)
  {
    r.ResultArray? && r.items != []
  }

  /** The audit title; a missing user name reads as the empty string. */
  function Title(env: Env, userId: UserId): string
  {
    "Reminder sent for " + (if userId in env.userNames then env.userNames[userId] else "") + "."
  }

  /** The largest number of sends a pass can make: the configured cap, or
      none when it is negative. */
  function Cap(maxNotificationsPerRequest: int): (r: nat)
    ensures r >= maxNotificationsPerRequest && (r == 0 || r == maxNotificationsPerRequest)
  {
    if maxNotificationsPerRequest < 0 then 0 else maxNotificationsPerRequest
  }

  /** The body of the inner loop for one user. */
  function VisitUser(settings: Settings, env: Env, s: Pass, v: Visit): Step
  {
    var counted := s.(userCount := s.userCount + 1);
    var userId := v.user.userId;
    var registrations := env.generate(v.user.payload, userId);
    match GetNotification(env, v.calendarId)
    case None => Continue(counted)
    case Some(n) =>
      var attempted := counted.(emailCount := counted.emailCount + 1);
      if attempted.emailCount > settings.maxNotificationsPerRequest then Abort(attempted)
      else
        var result := env.deliver(n, userId, v.calendarId, registrations, settings.fallbackLanguage);
        var call := SendCall(n, userId, v.calendarId, registrations, settings.fallbackLanguage, result);
        var sentNow := attempted.(sent := attempted.sent + [call]);
        Continue(sentNow.(table := Recorded(env, sentNow.table, call)))
  }

  /** The pass over a traversal, user after user, until the cap stops it. */
  function VisitAll(settings: Settings, env: Env, s: Pass, visits: seq<Visit>): Step
    decreases |visits|
  {
    if visits == [] then Continue(s)
    else
      match VisitUser(settings, env, s, visits[0])
      case Abort(p) => Abort(p)
      case Continue(p) => VisitAll(settings, env, p, visits[1..])
  }

  /** Goes on with `rest` unless the pass has been stopped. */
  function Resume(settings: Settings, env: Env, step: Step, rest: seq<Visit>): Step
  {
    match step
    case Abort(_) => step
    case Continue(p) => VisitAll(settings, env, p, rest)
  }

  /** The users of one calendar, as visits, in their order. */
  function Tag(calendarId: CalendarId, users: seq<UserEntry>): (r: seq<Visit>)
    ensures |r| == |users|
    ensures forall i | 0 <= i < |users| :: r[i] == Visit(calendarId, users[i])
  {
    if users == [] then [] else [Visit(calendarId, users[0])] + Tag(calendarId, users[1..])
  }

  /** The visits of one calendar entry; an entry that is not an array has none. */
  function EntryVisits(e: CalendarEntry): seq<Visit>
  {
    match e.users
    case NotArray => []
    case UserList(us) => Tag(e.calendarId, us)
  }

  /** The traversal order: calendars in the collector's order, each calendar's
      users in theirs. */
  function Flatten(data: seq<CalendarEntry>): seq<Visit>
  {
    if data == [] then [] else EntryVisits(data[0]) + Flatten(data[1..])
  }

  lemma FlattenAt(data: seq<CalendarEntry>, i: nat)
    requires i < |data|
    ensures Flatten(data[i..]) == EntryVisits(data[i]) + Flatten(data[i + 1..])
  {
    assert data[i..][0] == data[i] && data[i..][1..] == data[i + 1..];
  }

  /** One turn of the inner loop is one VisitUser step of the flat pass. */
  lemma VisitAllAt(settings: Settings, env: Env, s: Pass, calendarId: CalendarId, users: seq<UserEntry>, i: nat, later: seq<Visit>)
    requires i < |users|
    ensures VisitAll(settings, env, s, Tag(calendarId, users[i..]) + later)
         == Resume(settings, env, VisitUser(settings, env, s, Visit(calendarId, users[i])), Tag(calendarId, users[i + 1..]) + later)
  {
    var v := Visit(calendarId, users[i]);
    var rest := Tag(calendarId, users[i + 1..]) + later;
    assert users[i..][1..] == users[i + 1..];
    assert Tag(calendarId, users[i..]) + later == [v] + rest;
    assert ([v] + rest)[0] == v && ([v] + rest)[1..] == rest;
  }

  function Start(table: Table): Pass
  {
    Pass(0, 0, table, [])
  }

  /** The pass `run` makes once the kill switch is off. */
  function RunPass(settings: Settings, env: Env, table: Table): Step
  {
    VisitAll(settings, env, Start(table), Flatten(env.data))
  }

  /** run(): the kill switch, then the pass and its summary. */
  function RunSpec(settings: Settings, env: Env, table: Table): Outcome
  {
    if settings.disable then Outcome(Response(HttpForbidden, Text(DisabledText)), table, [])
    else
      var p := RunPass(settings, env, table).pass;
      Outcome(Response(HttpOk, Summary(p.userCount, p.emailCount)), p.table, p.sent)
  }

  /** __invoke(sid): the shared-secret gate in front of run(). */
  function InvokeSpec(settings: Settings, env: Env, sid: string, table: Table): Outcome
  {
    if sid != settings.sid then Outcome(Response(HttpOk, Text(DenialText)), table, [])
    else RunSpec(settings, env, table)
  }

  // ---------------------------------------------------------------------
  // Properties of the pass

  /** The pass over `a + b` is the pass over `a`, resumed with `b`. */
  lemma {:induction false} VisitAllAppend(settings: Settings, env: Env, s: Pass, a: seq<Visit>, b: seq<Visit>)
    ensures VisitAll(settings, env, s, a + b) == Resume(settings, env, VisitAll(settings, env, s, a), b)
    decreases |a|
  {
    if a == [] {
      assert a + b == b;
    } else {
      assert (a + b)[0] == a[0] && (a + b)[1..] == a[1..] + b;
      match VisitUser(settings, env, s, a[0])
      case Abort(p) =>
      case Continue(p) => VisitAllAppend(settings, env, p, a[1..], b);
    }
  }

  /** Once the cap has stopped the pass, nothing that comes later in the
      traversal (later users, later calendars) has any effect. */
  lemma AbortIgnoresLaterVisits(settings: Settings, env: Env, s: Pass, visits: seq<Visit>, later: seq<Visit>)
    requires VisitAll(settings, env, s, visits).Abort?
    ensures VisitAll(settings, env, s, visits + later) == VisitAll(settings, env, s, visits)
  {
    VisitAllAppend(settings, env, s, visits, later);
  }

  /** Every visited user is counted, whether or not a reminder goes out. */
  lemma {:induction false} ContinueCountsEveryUser(settings: Settings, env: Env, s: Pass, visits: seq<Visit>)
    requires VisitAll(settings, env, s, visits).Continue?
    ensures VisitAll(settings, env, s, visits).pass.userCount == s.userCount + |visits|
    decreases |visits|
  {
    if visits != [] {
      ContinueCountsEveryUser(settings, env, VisitUser(settings, env, s, visits[0]).pass, visits[1..]);
    }
  }

  /** A stopped pass stopped at some visit k: the visits before it ran to
      completion, visit k tripped the cap, and k itself was counted as a user. */
  lemma {:induction false} AbortPoint(settings: Settings, env: Env, s: Pass, visits: seq<Visit>) returns (k: nat)
    requires VisitAll(settings, env, s, visits).Abort?
    ensures k < |visits|
    ensures VisitAll(settings, env, s, visits[..k]).Continue?
    ensures VisitUser(settings, env, VisitAll(settings, env, s, visits[..k]).pass, visits[k])
            == VisitAll(settings, env, s, visits)
    ensures VisitAll(settings, env, s, visits).pass.userCount == s.userCount + k + 1
    decreases |visits|
  {
    var first := VisitUser(settings, env, s, visits[0]);
    assert visits[..0] == [];
    k := 0;
    if first.Continue? {
      var k' := AbortPoint(settings, env, first.pass, visits[1..]);
      k := k' + 1;
      assert visits[..k][0] == visits[0] && visits[..k][1..] == visits[1..][..k'];
      assert visits[k] == visits[1..][k'];
    }
  }

  /** The cap: a pass that starts with no attempts sends at most Cap times;
      while it goes on, the attempt counter equals the number of sends; when
      the cap stops it, exactly Cap sends were made and the attempt counter is
      one more than that. */
  lemma {:induction false} SendCapHolds(settings: Settings, env: Env, s: Pass, visits: seq<Visit>)
    requires s.emailCount == |s.sent| <= Cap(settings.maxNotificationsPerRequest)
    ensures var r := VisitAll(settings, env, s, visits);
      && |r.pass.sent| <= Cap(settings.maxNotificationsPerRequest)
      && (r.Continue? ==> r.pass.emailCount == |r.pass.sent|)
      && (r.Abort? ==> r.pass.emailCount == Cap(settings.maxNotificationsPerRequest) + 1
                       && |r.pass.sent| == Cap(settings.maxNotificationsPerRequest))
    decreases |visits|
  {
    if visits != [] {
      var first := VisitUser(settings, env, s, visits[0]);
      if first.Continue? {
        SendCapHolds(settings, env, first.pass, visits[1..]);
      }
    }
  }

  /** The sends only grow, and a pass that adds no send leaves the ledger alone. */
  lemma {:induction false} NoSendNoWrite(settings: Settings, env: Env, s: Pass, visits: seq<Visit>)
    ensures var r := VisitAll(settings, env, s, visits);
      && |r.pass.sent| >= |s.sent|
      && r.pass.sent[..|s.sent|] == s.sent
      && (|r.pass.sent| == |s.sent| ==> r.pass.table == s.table)
    decreases |visits|
  {
    if visits != [] {
      var first := VisitUser(settings, env, s, visits[0]);
      if first.Continue? {
        NoSendNoWrite(settings, env, first.pass, visits[1..]);
        assert first.pass.sent[..|s.sent|] == s.sent;
      }
    }
  }

  /** A send made for a visit: to the visited user, for a calendar whose
      notification resolves, carrying that user's guest list. */
  ghost predicate SendFor(settings: Settings, env: Env, v: Visit, call: SendCall)
  {
    && call.calendarId == v.calendarId
    && call.userId == v.user.userId
    && GetNotification(env, v.calendarId) == Some(call.notification)
    && call.registrations == env.generate(v.user.payload, v.user.userId)
    && call.language == settings.fallbackLanguage
    && call.result == env.deliver(call.notification, call.userId, call.calendarId, call.registrations, call.language)
  }

  /** Every send of a pass belongs to a visited user of a calendar with a
      resolvable notification; users of calendars without one get nothing. */
  lemma {:induction false} SendsFollowVisits(settings: Settings, env: Env, s: Pass, visits: seq<Visit>)
    ensures forall call | call in VisitAll(settings, env, s, visits).pass.sent ::
      call in s.sent || exists v :: v in visits && SendFor(settings, env, v, call)
    decreases |visits|
  {
    if visits != [] {
      var first := VisitUser(settings, env, s, visits[0]);
      if first.Continue? {
        SendsFollowVisits(settings, env, first.pass, visits[1..]);
        forall call | call in first.pass.sent && call !in s.sent
          ensures SendFor(settings, env, visits[0], call)
        {
        }
        forall v | v in visits[1..] ensures v in visits { }
      }
    }
  }

  /** A successful send for (user, calendar) is among the sends. */
  ghost predicate NotifiedIn(sent: seq<SendCall>, user: UserId, calendar: CalendarId)
  {
    exists call :: call in sent && call.userId == user && call.calendarId == calendar && Delivered(call.result)
  }

  /** The ledger against the one a pass started from: every pair notified in
      the pass has exactly one row, inserted during the pass; every other pair
      has the rows it had. */
  ghost predicate LedgerTracks(t0: Table, t: Table, sent: seq<SendCall>)
  {
    && WellFormed(t)
    && t.nextId >= t0.nextId
    && forall u, c ::
         if NotifiedIn(sent, u, c)
         then |RowsFor(t.rows, u, c)| == 1 && RowsFor(t.rows, u, c)[0].id >= t0.nextId
         else RowsFor(t.rows, u, c) == RowsFor(t0.rows, u, c)
  }

  lemma NotifiedInAppend(sent: seq<SendCall>, call: SendCall, user: UserId, calendar: CalendarId)
    ensures NotifiedIn(sent + [call], user, calendar) <==>
      NotifiedIn(sent, user, calendar)
      || (call.userId == user && call.calendarId == calendar && Delivered(call.result))
  {
    if NotifiedIn(sent + [call], user, calendar) {
      var x :| x in sent + [call] && x.userId == user && x.calendarId == calendar && Delivered(x.result);
      if x != call {
        assert x in sent;
      }
    }
    if NotifiedIn(sent, user, calendar) {
      var x :| x in sent && x.userId == user && x.calendarId == calendar && Delivered(x.result);
      assert x in sent + [call];
    }
    assert call in sent + [call];
  }

  /** One user's step keeps the ledger in step with the sends, and a failed
      send writes nothing. */
  lemma VisitUserTracksLedger(settings: Settings, env: Env, t0: Table, s: Pass, v: Visit)
    requires LedgerTracks(t0, s.table, s.sent)
    ensures var p := VisitUser(settings, env, s, v).pass; LedgerTracks(t0, p.table, p.sent)
    ensures var p := VisitUser(settings, env, s, v).pass;
      |p.sent| > |s.sent| && !Delivered(p.sent[|s.sent|].result) ==> p.table == s.table
  {
    var p := VisitUser(settings, env, s, v).pass;
    if p.sent != s.sent {
      var call := p.sent[|p.sent| - 1];
      assert p.sent == s.sent + [call];
      var user, calendar := v.user.userId, v.calendarId;
      if Delivered(call.result) {
        MarkNotifiedKeepsOne(s.table, user, calendar, Title(env, user));
        assert p.table == MarkNotified(s.table, user, calendar, Title(env, user));
      } else {
        assert p.table == s.table;
      }
      forall u, c ensures
        if NotifiedIn(p.sent, u, c)
        then |RowsFor(p.table.rows, u, c)| == 1 && RowsFor(p.table.rows, u, c)[0].id >= t0.nextId
        else RowsFor(p.table.rows, u, c) == RowsFor(t0.rows, u, c)
      {
        NotifiedInAppend(s.sent, call, u, c);
      }
    }
  }

  lemma {:induction false} VisitAllTracksLedger(settings: Settings, env: Env, t0: Table, s: Pass, visits: seq<Visit>)
    requires LedgerTracks(t0, s.table, s.sent)
    ensures var p := VisitAll(settings, env, s, visits).pass; LedgerTracks(t0, p.table, p.sent)
    decreases |visits|
  {
    if visits != [] {
      VisitUserTracksLedger(settings, env, t0, s, visits[0]);
      var first := VisitUser(settings, env, s, visits[0]);
      if first.Continue? {
        VisitAllTracksLedger(settings, env, t0, first.pass, visits[1..]);
      }
    }
  }

  /** One user's step: the user is always counted; an attempt is counted
      exactly when the calendar's notification resolves; the cap stops the
      pass before that attempt's send; otherwise exactly one send is made, for
      this user, and only a delivered send changes the ledger, by recording
      it. */
  lemma VisitUserStep(settings: Settings, env: Env, s: Pass, v: Visit)
    ensures var r := VisitUser(settings, env, s, v); var owed := GetNotification(env, v.calendarId).Some?;
      && r.pass.userCount == s.userCount + 1
      && r.pass.emailCount == s.emailCount + (if owed then 1 else 0)
      && (r.Abort? <==> owed && s.emailCount + 1 > settings.maxNotificationsPerRequest)
      && |r.pass.sent| == |s.sent| + (if r.Continue? && owed then 1 else 0)
      && r.pass.sent[..|s.sent|] == s.sent
      && (|r.pass.sent| == |s.sent| ==> r.pass.table == s.table)
      && (|r.pass.sent| > |s.sent| ==>
            SendFor(settings, env, v, r.pass.sent[|s.sent|])
            && r.pass.table == Recorded(env, s.table, r.pass.sent[|s.sent|]))
  {
  }

  /** The reference list of reminders owed: the visits, in traversal order,
      whose calendar's notification resolves. */
  function Configured(env: Env, visits: seq<Visit>): (r: seq<Visit>)
    ensures forall v :: v in r <==> v in visits && GetNotification(env, v.calendarId).Some?
    ensures |r| <= |visits|
  {
    if visits == [] then []
    else
      var tail := Configured(env, visits[1..]);
      if GetNotification(env, visits[0].calendarId).Some? then [visits[0]] + tail else tail
  }

  /** A pass that runs to the end makes exactly one attempt and one send per
      owed reminder, in traversal order, and nothing else. */
  lemma {:induction false} SendsMatchConfigured(settings: Settings, env: Env, s: Pass, visits: seq<Visit>)
    requires VisitAll(settings, env, s, visits).Continue?
    ensures var r := VisitAll(settings, env, s, visits).pass; var owed := Configured(env, visits);
      && |r.sent| == |s.sent| + |owed|
      && r.emailCount == s.emailCount + |owed|
      && r.sent[..|s.sent|] == s.sent
      && forall i | 0 <= i < |owed| :: SendFor(settings, env, owed[i], r.sent[|s.sent| + i])
    decreases |visits|
  {
    if visits != [] {
      var first := VisitUser(settings, env, s, visits[0]).pass;
      VisitUserStep(settings, env, s, visits[0]);
      SendsMatchConfigured(settings, env, first, visits[1..]);
      var r := VisitAll(settings, env, s, visits).pass;
      assert r == VisitAll(settings, env, first, visits[1..]).pass;
      assert r.sent[..|s.sent|] == r.sent[..|first.sent|][..|s.sent|];
      if GetNotification(env, visits[0].calendarId).Some? {
        SendsMatchOwedHead(settings, env, s.sent, first.sent, r.sent, visits[0], Configured(env, visits[1..]));
      }
    }
  }

  /** The step of `SendsMatchConfigured` for an owed first visit: its send
      comes first, the sends for the rest follow. */
  lemma SendsMatchOwedHead(settings: Settings, env: Env, before: seq<SendCall>, mid: seq<SendCall>, after: seq<SendCall>,
                           v: Visit, rest: seq<Visit>)
    requires |mid| == |before| + 1 && |after| == |mid| + |rest|
    requires after[..|mid|] == mid && SendFor(settings, env, v, mid[|before|])
    requires forall i | 0 <= i < |rest| :: SendFor(settings, env, rest[i], after[|mid| + i])
    ensures forall i | 0 <= i < |[v] + rest| :: SendFor(settings, env, ([v] + rest)[i], after[|before| + i])
  {
    assert after[|before|] == after[..|mid|][|before|];
    forall i | 0 <= i < |[v] + rest|
      ensures SendFor(settings, env, ([v] + rest)[i], after[|before| + i])
    {
      if i > 0 {
        assert ([v] + rest)[i] == rest[i - 1];
      }
    }
  }

  /** A pass the cap stopped at visit k made exactly one attempt and one send
      per owed reminder before k, in order; visit k owed a reminder, and its
      attempt is counted but not sent. */
  lemma SendsMatchConfiguredUntilCap(settings: Settings, env: Env, s: Pass, visits: seq<Visit>) returns (k: nat)
    requires VisitAll(settings, env, s, visits).Abort?
    ensures k < |visits| && GetNotification(env, visits[k].calendarId).Some?
    ensures var r := VisitAll(settings, env, s, visits).pass; var owed := Configured(env, visits[..k]);
      && |r.sent| == |s.sent| + |owed|
      && r.emailCount == s.emailCount + |owed| + 1
      && r.sent[..|s.sent|] == s.sent
      && forall i | 0 <= i < |owed| :: SendFor(settings, env, owed[i], r.sent[|s.sent| + i])
  {
    k := AbortPoint(settings, env, s, visits);
    SendsMatchConfigured(settings, env, s, visits[..k]);
    VisitUserStep(settings, env, VisitAll(settings, env, s, visits[..k]).pass, visits[k]);
  }

  /** The ledger change one send makes: a delivered reminder is recorded
      (insert, then prune), a failed one writes nothing. */
  function Recorded(env: Env, t: Table, call: SendCall): Table
  {
    if Delivered(call.result) then MarkNotified(t, call.userId, call.calendarId, Title(env, call.userId)) else t
  }

  /** The ledger after the given sends, applied in order. */
  function Replay(env: Env, t: Table, sent: seq<SendCall>): Table
    decreases |sent|
  {
    if sent == [] then t else Replay(env, Recorded(env, t, sent[0]), sent[1..])
  }

  /** The ledger a pass leaves is its start ledger with the pass's sends
      replayed: nothing but a delivered send writes, and each delivered send
      writes exactly its own insert and prune. */
  lemma {:induction false} LedgerFollowsSends(settings: Settings, env: Env, s: Pass, visits: seq<Visit>)
    ensures var r := VisitAll(settings, env, s, visits).pass;
      |r.sent| >= |s.sent| && r.table == Replay(env, s.table, r.sent[|s.sent|..])
    decreases |visits|
  {
    var r := VisitAll(settings, env, s, visits).pass;
    if visits == [] {
      assert r.sent[|s.sent|..] == [];
    } else {
      var step := VisitUser(settings, env, s, visits[0]);
      var first := step.pass;
      VisitUserStep(settings, env, s, visits[0]);
      if step.Continue? {
        LedgerFollowsSends(settings, env, first, visits[1..]);
        NoSendNoWrite(settings, env, first, visits[1..]);
        if |first.sent| > |s.sent| {
          assert r.sent[|s.sent|..][0] == first.sent[|s.sent|];
          assert r.sent[|s.sent|..][1..] == r.sent[|first.sent|..];
        } else {
          assert first.sent == first.sent[..|s.sent|];
        }
      } else {
        assert r.sent[|s.sent|..] == [];
      }
    }
  }

  // ---------------------------------------------------------------------
  // Properties of one invocation

  /** A wrong secret gets the fixed denial; the pass is not entered. */
  lemma WrongSidIsDenied(settings: Settings, env: Env, sid: string, table: Table)
    requires sid != settings.sid
    ensures InvokeSpec(settings, env, sid, table) == Outcome(Response(HttpOk, Text(DenialText)), table, [])
  {
  }

  /** The kill switch answers 403 before anything is traversed or sent. */
  lemma DisabledIsForbidden(settings: Settings, env: Env, table: Table)
    requires settings.disable
    ensures RunSpec(settings, env, table) == Outcome(Response(HttpForbidden, Text(DisabledText)), table, [])
  {
  }

  /** At most Cap sends per invocation. The reported count is the attempt
      counter: equal to the sends when the pass completes, Cap + 1 when the
      cap stopped it. */
  lemma RunRespectsCap(settings: Settings, env: Env, table: Table)
    ensures |RunSpec(settings, env, table).sent| <= Cap(settings.maxNotificationsPerRequest)
    ensures !settings.disable && RunPass(settings, env, table).Continue? ==>
      RunSpec(settings, env, table).response.body.notifications == |RunSpec(settings, env, table).sent|
    ensures !settings.disable && RunPass(settings, env, table).Abort? ==>
      && RunSpec(settings, env, table).response.body.notifications == Cap(settings.maxNotificationsPerRequest) + 1
      && |RunSpec(settings, env, table).sent| == Cap(settings.maxNotificationsPerRequest)
  {
    SendCapHolds(settings, env, Start(table), Flatten(env.data));
  }

  /** The reported user count: every user of every array entry when the pass
      completes; otherwise the users up to and including the one at which
      the cap tripped, and the traversal after that user is irrelevant. */
  lemma RunCountsUsers(settings: Settings, env: Env, table: Table) returns (k: nat)
    requires !settings.disable
    ensures RunPass(settings, env, table).Continue? ==>
      RunSpec(settings, env, table).response.body.users == |Flatten(env.data)|
    ensures RunPass(settings, env, table).Abort? ==>
      && k < |Flatten(env.data)|
      && RunSpec(settings, env, table).response.body.users == k + 1
      && VisitAll(settings, env, Start(table), Flatten(env.data)[..k + 1]) == RunPass(settings, env, table)
  {
    k := 0;
    var visits := Flatten(env.data);
    if RunPass(settings, env, table).Continue? {
      ContinueCountsEveryUser(settings, env, Start(table), visits);
    } else {
      k := AbortPoint(settings, env, Start(table), visits);
      var prefix := VisitAll(settings, env, Start(table), visits[..k]);
      VisitAllAppend(settings, env, Start(table), visits[..k], [visits[k]]);
      assert visits[..k] + [visits[k]] == visits[..k + 1];
      assert [visits[k]][1..] == [];
    }
  }

  /** With a cap of zero or less nothing is sent and the ledger is unchanged. */
  lemma ZeroCapSendsNothing(settings: Settings, env: Env, table: Table)
    requires settings.maxNotificationsPerRequest <= 0
    ensures RunSpec(settings, env, table).sent == []
    ensures RunSpec(settings, env, table).table == table
  {
    RunRespectsCap(settings, env, table);
    NoSendNoWrite(settings, env, Start(table), Flatten(env.data));
  }

  /** Every send of an invocation goes to a collected user of a calendar whose
      notification resolves, with that user's guest list. */
  lemma RunSendsOnlyConfigured(settings: Settings, env: Env, table: Table)
    ensures forall call | call in RunSpec(settings, env, table).sent ::
      exists v :: v in Flatten(env.data) && SendFor(settings, env, v, call)
  {
    if !settings.disable {
      SendsFollowVisits(settings, env, Start(table), Flatten(env.data));
    }
  }

  /** The converse: when the pass completes, every collected user of a
      calendar whose notification resolves gets exactly one send, in traversal
      order, and the reported count is their number. When the cap stops the
      pass at visit k, the same holds for the visits before k, and visit k
      owed a reminder that is counted but not sent. */
  lemma RunSendsEveryConfigured(settings: Settings, env: Env, table: Table) returns (k: nat)
    requires !settings.disable
    ensures var o := RunSpec(settings, env, table); var owed := Configured(env, Flatten(env.data));
      RunPass(settings, env, table).Continue? ==>
        && |o.sent| == |owed| == o.response.body.notifications
        && forall i | 0 <= i < |owed| :: SendFor(settings, env, owed[i], o.sent[i])
    ensures var o := RunSpec(settings, env, table); var visits := Flatten(env.data);
      RunPass(settings, env, table).Abort? ==>
        && k < |visits|
        && GetNotification(env, visits[k].calendarId).Some?
        && |o.sent| == |Configured(env, visits[..k])|
        && o.response.body.notifications == |o.sent| + 1
        && forall i | 0 <= i < |o.sent| :: SendFor(settings, env, Configured(env, visits[..k])[i], o.sent[i])
  {
    k := 0;
    var visits := Flatten(env.data);
    if RunPass(settings, env, table).Continue? {
      SendsMatchConfigured(settings, env, Start(table), visits);
    } else {
      k := SendsMatchConfiguredUntilCap(settings, env, Start(table), visits);
    }
  }

  /** The ledger an invocation leaves is its ledger with the invocation's
      sends replayed in order. */
  lemma RunLedgerReplaysSends(settings: Settings, env: Env, table: Table)
    ensures RunSpec(settings, env, table).table == Replay(env, table, RunSpec(settings, env, table).sent)
  {
    if !settings.disable {
      var r := RunPass(settings, env, table).pass;
      LedgerFollowsSends(settings, env, Start(table), Flatten(env.data));
      assert r.sent[0..] == r.sent;
    }
  }

  /** After an invocation on a well-formed ledger, every (user, calendar)
      pair successfully notified has exactly one row, a new one; every other
      pair keeps the rows it had. */
  lemma RunKeepsOneRowPerNotifiedPair(settings: Settings, env: Env, table: Table)
    requires WellFormed(table)
    ensures LedgerTracks(table, RunSpec(settings, env, table).table, RunSpec(settings, env, table).sent)
  {
    if !settings.disable {
      VisitAllTracksLedger(settings, env, table, Start(table), Flatten(env.data));
    }
  }

  // ---------------------------------------------------------------------
  // The imperative controller

  /** The connection's lastInsertId() after some writes to the ledger: the
      id of the last inserted row when the counter moved, and the value it had
      before when nothing was inserted. */
  predicate LastInsertIdAfter(nextId0: int, lastId0: int, nextId: int, lastId: int)
  {
    nextId >= nextId0 && lastId == if nextId == nextId0 then lastId0 else nextId - 1
  }

  /** NotificationHelper: sends through the transport and, as a spy, keeps a
      log of every call it received. */
  class NotificationHelper {
    const deliver: (Notification, UserId, CalendarId, string, string) -> SendResult
    var sent: seq<SendCall>

    constructor (deliver: (Notification, UserId, CalendarId, string, string) -> SendResult)
      ensures this.deliver == deliver && sent == []
    {
      this.deliver := deliver;
      sent := [];
    }

    method Send(notification: Notification, userId: UserId, calendarId: CalendarId,
                registrations: string, language: string) returns (r: SendResult)
      modifies this
      ensures r == deliver(notification, userId, calendarId, registrations, language)
      ensures sent == old(sent) + [SendCall(notification, userId, calendarId, registrations, language, r)]
    {
      r := deliver(notification, userId, calendarId, registrations, language);
      sent := sent + [SendCall(notification, userId, calendarId, registrations, language, r)];
    }
  }

  class Controller {
    const settings: Settings
    const env: Env
    const ledger: Ledger
    const helper: NotificationHelper

    ghost predicate Valid()
    {
      helper.deliver == env.deliver
    }

    constructor (settings: Settings, env: Env, ledger: Ledger)
      ensures Valid()
      ensures this.settings == settings && this.env == env && this.ledger == ledger
      ensures fresh(helper) && helper.sent == []
    {
      this.settings := settings;
      this.env := env;
      this.ledger := ledger;
      helper := new NotificationHelper(env.deliver);
    }

    /** __invoke(sid) */
    method Invoke(sid: string) returns (response: Response)
      requires Valid()
      modifies ledger, helper
      ensures var o := InvokeSpec(settings, env, sid, old(ledger.State()));
        response == o.response && ledger.State() == o.table && helper.sent == old(helper.sent) + o.sent
      ensures LastInsertIdAfter(old(ledger.nextId), old(ledger.lastInsertId), ledger.nextId, ledger.lastInsertId)
    {
      if sid != settings.sid {
        return Response(HttpOk, Text(DenialText));
      }
      response := Run();
    }

    /** The body of run()'s inner loop for one user: count the user, build the
        guest list, resolve the notification, count the attempt and report
        `stop` when it exceeds the cap (the `break 2`), otherwise send and, on
        success, insert the ledger row and delete the pair's other rows. */
    method RemindUser(calendarId: CalendarId, entry: UserEntry, userCount: int, emailCount: int,
                      ghost sent0: seq<SendCall>, ghost runSent: seq<SendCall>)
      returns (userCount': int, emailCount': int, stop: bool, ghost runSent': seq<SendCall>)
      requires Valid()
      requires helper.sent == sent0 + runSent
      modifies ledger, helper
      ensures var step := VisitUser(settings, env, Pass(userCount, emailCount, old(ledger.State()), runSent), Visit(calendarId, entry));
        && stop == step.Abort?
        && step.pass == Pass(userCount', emailCount', ledger.State(), runSent')
      ensures helper.sent == sent0 + runSent'
      ensures LastInsertIdAfter(old(ledger.nextId), old(ledger.lastInsertId), ledger.nextId, ledger.lastInsertId)
    {
      userCount' := userCount + 1;
      emailCount' := emailCount;
      runSent' := runSent;
      stop := false;
      var userId := entry.userId;
      var arrUser := entry.payload;
      var registrations := env.generate(arrUser, userId);
      var notification := GetNotification(env, calendarId);
      if notification.Some? {
        emailCount' := emailCount' + 1;
        if emailCount' > settings.maxNotificationsPerRequest {
          stop := true;
          return;
        }
        var arr := helper.Send(notification.value, userId, calendarId, registrations, settings.fallbackLanguage);
        runSent' := runSent' + [SendCall(notification.value, userId, calendarId, registrations, settings.fallbackLanguage, arr)];
        if Delivered(arr) {
          var title := Title(env, userId);
          var affectedRows := ledger.Insert(userId, calendarId, title);
          if affectedRows > 0 {
            var lastInsertId := ledger.lastInsertId;
            ledger.DeleteOthers(lastInsertId, userId, calendarId);
          }
        }
      }
    }

    /** run(): the kill switch, the nested loop over calendars and users with
        the cap's `break 2`, the ledger writes and the summary. */
    method Run() returns (response: Response)
      requires Valid()
      modifies ledger, helper
      ensures var o := RunSpec(settings, env, old(ledger.State()));
        response == o.response && ledger.State() == o.table && helper.sent == old(helper.sent) + o.sent
      ensures LastInsertIdAfter(old(ledger.nextId), old(ledger.lastInsertId), ledger.nextId, ledger.lastInsertId)
    {
      if settings.disable {
        return Response(HttpForbidden, Text(DisabledText));
      }
      var data := env.data;
      ghost var sent0 := helper.sent;
      ghost var goal := VisitAll(settings, env, Start(ledger.State()), Flatten(data));
      ghost var runSent: seq<SendCall> := [];
      ghost var nextId0, lastId0 := ledger.nextId, ledger.lastInsertId;
      var emailCount := 0;
      var userCount := 0;
      var ci := 0;
      while ci < |data|
        invariant 0 <= ci <= |data|
        invariant helper.sent == sent0 + runSent
        invariant LastInsertIdAfter(nextId0, lastId0, ledger.nextId, ledger.lastInsertId)
        invariant VisitAll(settings, env, Pass(userCount, emailCount, ledger.State(), runSent), Flatten(data[ci..])) == goal
      {
        var calendarId := data[ci].calendarId;
        var arrUsers := data[ci].users;
        FlattenAt(data, ci);
        if arrUsers.UserList? {
          var users := arrUsers.entries;
          var ui := 0;
          while ui < |users|
            invariant 0 <= ui <= |users|
            invariant helper.sent == sent0 + runSent
            invariant LastInsertIdAfter(nextId0, lastId0, ledger.nextId, ledger.lastInsertId)
            invariant VisitAll(settings, env, Pass(userCount, emailCount, ledger.State(), runSent),
                               Tag(calendarId, users[ui..]) + Flatten(data[ci + 1..])) == goal
          {
            VisitAllAt(settings, env, Pass(userCount, emailCount, ledger.State(), runSent), calendarId, users, ui, Flatten(data[ci + 1..]));
            var stop;
            userCount, emailCount, stop, runSent := RemindUser(calendarId, users[ui], userCount, emailCount, sent0, runSent);
            if stop {
              break break;
            }
            ui := ui + 1;
          }
          assert users[ui..] == [];
        }
        assert [] + Flatten(data[ci + 1..]) == Flatten(data[ci + 1..]);
        ci := ci + 1;
      }
      assert goal.pass == Pass(userCount, emailCount, ledger.State(), runSent);
      response := Response(HttpOk, Summary(userCount, emailCount));
    }
  }
}
