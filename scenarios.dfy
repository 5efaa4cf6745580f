/** Worked examples of the reminder pass, proved about the model: calendar
    1 has three users waiting and a configured reminder notification, calendar
    2 has two users and none, and the entry of calendar 3 is not an array.
    Every send succeeds and the ledger starts empty. */
module ReminderScenarios {
  import opened NotificationLedger
  import opened ReminderController

  function ScenarioEnv(): Env
  {
    Env(
      [CalendarEntry(1, UserList([UserEntry(11, map[]), UserEntry(12, map[]), UserEntry(13, map[])])),
       CalendarEntry(2, UserList([UserEntry(21, map[]), UserEntry(22, map[])])),
       CalendarEntry(3, NotArray)],
      map[1 := 7, 2 := 0],
      map[7 := Notification(7)],
      map[11 := "Ann", 12 := "Ben", 13 := "Cyd"],
      (p: Payload, u: UserId) => "guest list",
      (n: Notification, u: UserId, c: CalendarId, r: string, l: string) => ResultArray([1]))
  }

  function ScenarioSettings(maxNotificationsPerRequest: int): Settings
  {
    Settings(false, "secret", false, maxNotificationsPerRequest, "de")
  }

  function Traversal(): seq<Visit>
  {
    [Visit(1, UserEntry(11, map[])), Visit(1, UserEntry(12, map[])), Visit(1, UserEntry(13, map[])),
     Visit(2, UserEntry(21, map[])), Visit(2, UserEntry(22, map[]))]
  }

  /** Calendars in order, users in order, the non-array entry contributing none. */
  lemma ScenarioTraversal()
    ensures Flatten(ScenarioEnv().data) == Traversal()
  {
  }

  /** The send the scenario makes for a user of calendar 1. */
  function Reminder(userId: UserId): SendCall
  {
    SendCall(Notification(7), userId, 1, "guest list", "de", ResultArray([1]))
  }

  function Ann(): Record { Record(1, 11, 1, "Reminder sent for Ann.") }
  function Ben(): Record { Record(2, 12, 1, "Reminder sent for Ben.") }
  function Cyd(): Record { Record(3, 13, 1, "Reminder sent for Cyd.") }

  /** The first three steps, one lemma each, under a cap that lets the step's
      attempt through: every user of calendar 1 is sent a reminder and gets
      one ledger row. */
  lemma AnnStep(max: int)
    requires max >= 1
    ensures VisitUser(ScenarioSettings(max), ScenarioEnv(), Start(Table([], 1)), Traversal()[0])
         == Continue(Pass(1, 1, Table([Ann()], 2), [Reminder(11)]))
  {
    assert Title(ScenarioEnv(), 11) == "Reminder sent for Ann.";
  }

  lemma BenStep(max: int)
    requires max >= 2
    ensures VisitUser(ScenarioSettings(max), ScenarioEnv(), Pass(1, 1, Table([Ann()], 2), [Reminder(11)]), Traversal()[1])
         == Continue(Pass(2, 2, Table([Ann(), Ben()], 3), [Reminder(11), Reminder(12)]))
  {
    assert Title(ScenarioEnv(), 12) == "Reminder sent for Ben.";
  }

  lemma CydStep(max: int)
    requires max >= 3
    ensures VisitUser(ScenarioSettings(max), ScenarioEnv(), Pass(2, 2, Table([Ann(), Ben()], 3), [Reminder(11), Reminder(12)]), Traversal()[2])
         == Continue(Pass(3, 3, Table([Ann(), Ben(), Cyd()], 4), [Reminder(11), Reminder(12), Reminder(13)]))
  {
    assert Title(ScenarioEnv(), 13) == "Reminder sent for Cyd.";
  }

  /** Cap 10: five users traversed, three reminders sent, one ledger row per
      user of calendar 1. */
  lemma ScenarioWithinCap()
    ensures RunSpec(ScenarioSettings(10), ScenarioEnv(), Table([], 1))
         == Outcome(Response(HttpOk, Summary(5, 3)), Table([Ann(), Ben(), Cyd()], 4),
                    [Reminder(11), Reminder(12), Reminder(13)])
  {
    ScenarioTraversal();
    AnnStep(10);
    BenStep(10);
    CydStep(10);
    var settings, env, vs := ScenarioSettings(10), ScenarioEnv(), Traversal();
    var p3 := Pass(3, 3, Table([Ann(), Ben(), Cyd()], 4), [Reminder(11), Reminder(12), Reminder(13)]);
    assert VisitAll(settings, env, Start(Table([], 1)), vs) == VisitAll(settings, env, p3, vs[3..]);
    assert VisitAll(settings, env, p3, vs[3..]) == Continue(p3.(userCount := 5)) by {
      assert vs[3..][1..][1..] == [];
    }
  }

  /** Cap 2: the third user of calendar 1 trips the cap. Two reminders go out,
      but the summary reports three users and three notifications, and the
      users of calendar 2 are never traversed. */
  lemma ScenarioCapTwo()
    ensures RunSpec(ScenarioSettings(2), ScenarioEnv(), Table([], 1))
         == Outcome(Response(HttpOk, Summary(3, 3)), Table([Ann(), Ben()], 3), [Reminder(11), Reminder(12)])
  {
    ScenarioTraversal();
    AnnStep(2);
    BenStep(2);
  }

  /** Cap 0: the first user of calendar 1 trips the cap; nothing is sent and
      only that user is counted. */
  lemma ScenarioCapZero()
    ensures RunSpec(ScenarioSettings(0), ScenarioEnv(), Table([], 1))
         == Outcome(Response(HttpOk, Summary(1, 1)), Table([], 1), [])
  {
    ScenarioTraversal();
  }

  /** A wrong secret is denied without touching the ledger. */
  lemma ScenarioWrongSid()
    ensures InvokeSpec(ScenarioSettings(10), ScenarioEnv(), "guess", Table([], 1))
         == Outcome(Response(HttpOk, Text("You're not  allowed. Check your sid, please.")), Table([], 1), [])
  {
  }
}
