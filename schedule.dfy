/** The daily sending of word clouds: the registry from time of day to cron
    job that `Scheduler.refresh` rebuilds from the stored schedules, and the
    task a job runs, which renders and sends today's word cloud to every
    group scheduled at that time. */
module Schedule {
  import opened Wrappers
  import opened Seqs
  import opened Civil
  import opened PluginConfig
  import TimeRange

  /** A stored schedule row: one per (bot, group), with an optional time. */
  datatype ScheduleRecord = ScheduleRecord(botId: string, groupId: string, time: Option<TimeOfDay>)

  /** A daily cron job: fires at `hour:minute:second` and calls `run_task(arg)`. */
  datatype CronJob = CronJob(hour: int, minute: int, second: int, arg: TimeOfDay)

  /** The job `refresh` registers for the key `t`. */
  function JobFor(t: TimeOfDay): (j: CronJob)
    ensures j.hour == t.hour && j.minute == t.minute && j.second == t.second && j.arg == t
  {
    CronJob(t.hour, t.minute, t.second, t)
  }

  /** The job store of the cron scheduler; a job handle is its id. */
  class CronRuntime {
    var jobs: map<nat, CronJob>
    var nextId: nat

    ghost predicate Valid()
      reads this
    {
      forall id :: id in jobs ==> id < nextId
    }

    constructor()
      ensures Valid() && jobs == map[]
    {
      jobs := map[];
      nextId := 0;
    }

    /** `scheduler.add_job(...)`: registers the job under a fresh handle. */
    method AddJob(job: CronJob) returns (id: nat)
      requires Valid()
      modifies this
      ensures Valid()
      ensures id == old(nextId) && nextId == old(nextId) + 1
      ensures id !in old(jobs) && jobs == old(jobs)[id := job]
    {
      id := nextId;
      jobs := jobs[id := job];
      nextId := nextId + 1;
    }

    /** `job.remove()` on a live job. */
    method Remove(id: nat)
      requires Valid() && id in jobs
      modifies this
      ensures Valid()
      ensures jobs == old(jobs) - {id} && nextId == old(nextId)
    {
      jobs := jobs - {id};
    }
  }

  /** The times `refresh` registers: the default time and every non-null
      stored time. */
  function RegisteredTimes(store: seq<ScheduleRecord>, defaultTime: TimeOfDay): set<TimeOfDay> {
    {defaultTime} + set r | r in store && r.time.Some? :: r.time.value
  }

  /** The grouped query: each distinct non-null time once, in order of first
      appearance. */
  function DistinctTimes(store: seq<ScheduleRecord>): (ts: seq<TimeOfDay>)
    ensures forall t :: t in ts <==> exists r :: r in store && r.time == Some(t)
    ensures forall i, j :: 0 <= i < j < |ts| ==> ts[i] != ts[j]
  {
    if store == [] then []
    else
      var init, last := store[..|store| - 1], store[|store| - 1];
      SplitLast(store);
      var prefix := DistinctTimes(init);
      if last.time.Some? && last.time.value !in prefix then prefix + [last.time.value] else prefix
  }

  /** The elements of a sequence, as a set. */
  function Elems(ts: seq<TimeOfDay>): set<TimeOfDay> {
    set t | t in ts
  }

  lemma ElemsSnoc(ts: seq<TimeOfDay>, i: nat)
    requires i < |ts|
    ensures Elems(ts[..i + 1]) == Elems(ts[..i]) + {ts[i]}
  {
    PrefixSnoc(ts, i);
  }

  /** The grouped query yields exactly the stored non-null times. */
  lemma DistinctTimesCover(store: seq<ScheduleRecord>)
    ensures Elems(DistinctTimes(store)) == set r | r in store && r.time.Some? :: r.time.value
  {
    var times := DistinctTimes(store);
    var stored := set r | r in store && r.time.Some? :: r.time.value;
    forall t
      ensures t in times <==> t in stored
    {
      if t in stored {
        var r :| r in store && r.time.Some? && r.time.value == t;
      }
    }
  }

  class Scheduler {
    /** `self.schedules`: time of day to job handle. */
    var schedules: map<TimeOfDay, nat>
    const cron: CronRuntime

    /** Every registered job is live, fires at its key's hour/minute/second
        with the key as argument, and no two keys share a job. */
    ghost predicate Valid()
      reads this, cron
    {
      && cron.Valid()
      && (forall t :: t in schedules ==> schedules[t] in cron.jobs && cron.jobs[schedules[t]] == JobFor(t))
      && (forall t, u :: t in schedules && u in schedules && t != u ==> schedules[t] != schedules[u])
    }

    /** `Scheduler.__init__`: an empty registry. */
    constructor(cron: CronRuntime)
      requires cron.Valid()
      ensures Valid() && schedules == map[] && this.cron == cron
    {
      schedules := map[];
      this.cron := cron;
    }

    /** The first half of `refresh`: remove every registered job, then clear
        the registry. */
    method RemoveAll()
      requires Valid()
      modifies this, cron
      ensures Valid() && schedules == map[]
      ensures cron.jobs == old(cron.jobs) - old(schedules).Values && cron.nextId == old(cron.nextId)
    {
      var pending := schedules.Values;
      while pending != {}
        invariant pending <= old(schedules).Values
        invariant schedules == old(schedules)
        invariant cron.Valid() && cron.nextId == old(cron.nextId)
        invariant cron.jobs == old(cron.jobs) - (old(schedules).Values - pending)
        decreases pending
      {
        var id :| id in pending;
        cron.Remove(id);
        pending := pending - {id};
      }
      schedules := map[];
    }

    /** Since the snapshot `before` / `firstId` / `jobsBefore`, the registry
        only gained keys, each under a fresh job, every new job belongs to the
        key it is called with, and no earlier job changed. */
    ghost predicate Grew(before: map<TimeOfDay, nat>, firstId: nat, jobsBefore: map<nat, CronJob>)
      reads this, cron
    {
      && Valid() && firstId <= cron.nextId
      && before.Keys <= schedules.Keys
      && (forall t :: t in schedules ==> schedules[t] < cron.nextId)
      && (forall t :: t in before ==> schedules[t] == before[t])
      && (forall t :: t in schedules ==> t in before || firstId <= schedules[t])
      && (forall j :: j in cron.jobs && j !in jobsBefore ==>
            cron.jobs[j].arg in schedules && schedules[cron.jobs[j].arg] == j)
      && (forall j :: j in cron.jobs ==> j in jobsBefore || firstId <= j)
      && (forall j :: j in jobsBefore ==> j in cron.jobs && cron.jobs[j] == jobsBefore[j])
    }

    /** Registers `t` under a fresh job unless it is registered already. */
    method AddIfMissing(t: TimeOfDay, ghost before: map<TimeOfDay, nat>, ghost firstId: nat,
                        ghost jobsBefore: map<nat, CronJob>)
      requires Grew(before, firstId, jobsBefore)
      modifies this, cron
      ensures Grew(before, firstId, jobsBefore)
      ensures schedules.Keys == old(schedules).Keys + {t}
    {
      if t !in schedules {
        ghost var keysBefore := schedules.Keys;
        var jobId := cron.AddJob(JobFor(t));
        schedules := schedules[t := jobId];
        assert schedules.Keys == keysBefore + {t};
      }
    }

    /** The second half of `refresh`: register each time not yet registered. */
    method AddMissing(times: seq<TimeOfDay>)
      requires Valid()
      requires forall t :: t in schedules ==> schedules[t] < cron.nextId
      modifies this, cron
      ensures Grew(old(schedules), old(cron.nextId), old(cron.jobs))
      ensures schedules.Keys == old(schedules).Keys + Elems(times)
    {
      ghost var before, firstId, jobsBefore := schedules, cron.nextId, cron.jobs;
      var i := 0;
      while i < |times|
        invariant 0 <= i <= |times|
        invariant Grew(before, firstId, jobsBefore)
        invariant schedules.Keys == before.Keys + Elems(times[..i])
      {
        ElemsSnoc(times, i);
        AddIfMissing(times[i], before, firstId, jobsBefore);
        i := i + 1;
      }
      TakeAll(times);
    }

    /** `refresh`: remove every registered job and clear the registry, then
        register the default time, then each distinct stored time not yet
        registered. Every job added is the job of a registered time. */
    method Refresh(store: seq<ScheduleRecord>, defaultTime: TimeOfDay)
      requires Valid()
      modifies this, cron
      ensures Valid()
      ensures schedules.Keys == RegisteredTimes(store, defaultTime)
      ensures forall t :: t in old(schedules) ==> old(schedules)[t] !in cron.jobs
      ensures forall id :: id in old(cron.jobs) && id !in old(schedules).Values ==>
        id in cron.jobs && cron.jobs[id] == old(cron.jobs)[id]
      ensures forall j :: j in cron.jobs && j !in old(cron.jobs) ==>
        cron.jobs[j].arg in schedules && schedules[cron.jobs[j].arg] == j
      ensures forall j :: j in cron.jobs ==> j in old(cron.jobs) || old(cron.nextId) <= j
    {
      RemoveAll();
      var id := cron.AddJob(JobFor(defaultTime));
      schedules := schedules[defaultTime := id];
      var times := DistinctTimes(store);
      AddMissing(times);
      DistinctTimesCover(store);
      forall t | t in old(schedules)
        ensures old(schedules)[t] !in cron.jobs
      {
        assert old(schedules)[t] < old(cron.nextId);
      }
    }
  }

  /** Refreshing twice against the same store registers the same times. */
  method RefreshTwice(s: Scheduler, store: seq<ScheduleRecord>, defaultTime: TimeOfDay)
    requires s.Valid()
    modifies s, s.cron
    ensures s.Valid()
    ensures s.schedules.Keys == RegisteredTimes(store, defaultTime)
  {
    s.Refresh(store, defaultTime);
    ghost var first := s.schedules.Keys;
    s.Refresh(store, defaultTime);
    assert s.schedules.Keys == first;
  }

  /** The default time is always registered, and a stored time equal to it
      adds nothing. */
  lemma RegisteredTimesDefault(store: seq<ScheduleRecord>, defaultTime: TimeOfDay)
    ensures defaultTime in RegisteredTimes(store, defaultTime)
    ensures (forall r :: r in store && r.time.Some? ==> r.time.value == defaultTime) ==>
      RegisteredTimes(store, defaultTime) == {defaultTime}
  {
  }

  /** Registered times are exactly the default and the stored non-null times. */
  lemma RegisteredTimesMembers(store: seq<ScheduleRecord>, defaultTime: TimeOfDay, t: TimeOfDay)
    ensures t in RegisteredTimes(store, defaultTime) <==>
      t == defaultTime || exists i :: 0 <= i < |store| && store[i].time == Some(t)
  {
    if t in RegisteredTimes(store, defaultTime) && t != defaultTime {
      var r :| r in store && r.time.Some? && r.time.value == t;
      var i :| 0 <= i < |store| && store[i] == r;
    }
  }

  // ---------------------------------------------------------------------
  // run_task

  /** A connected bot; sending needs its own id. */
  datatype Bot = Bot(selfId: string)

  /** What `get_message_records` is asked for: one group, excluding the bot's
      own messages, between two instants already converted to UTC. */
  datatype RecordsQuery = RecordsQuery(groupId: string, excludeUserId: string,
                                       timeStart: DateTime, timeStop: DateTime)

  /** An image sent to a group. */
  datatype GroupImage = GroupImage(groupId: string, image: seq<bv8>)

  /** The records the task visits: those whose time is the fired time, in order. */
  function Selected(store: seq<ScheduleRecord>, t: TimeOfDay): (sel: seq<ScheduleRecord>)
    ensures |sel| <= |store|
    ensures forall r :: r in sel <==> r in store && r.time == Some(t)
  {
    if store == [] then []
    else
      var init, last := store[..|store| - 1], store[|store| - 1];
      SplitLast(store);
      Selected(init, t) + (if last.time == Some(t) then [last] else [])
  }

  /** The range of "today": midnight of now, up to now. */
  function Today(now: DateTime): (DateTime, DateTime) {
    (Midnight(now), now)
  }

  /** The query for one visited record at the moment `now`. */
  function QueryFor(r: ScheduleRecord, bot: Bot, now: DateTime, toUtc: DateTime -> DateTime): RecordsQuery {
    RecordsQuery(r.groupId, bot.selfId, toUtc(Today(now).0), toUtc(Today(now).1))
  }

  /** How many records are visited before one names a bot that is not
      connected (`get_bot` raises there). */
  function VisitedCount(sel: seq<ScheduleRecord>, bots: map<string, Bot>): (n: nat)
    ensures n <= |sel|
    ensures forall i :: 0 <= i < n ==> sel[i].botId in bots
    ensures n < |sel| ==> sel[n].botId !in bots
  {
    if sel == [] then 0
    else if sel[0].botId !in bots then 0
    else 1 + VisitedCount(sel[1..], bots)
  }

  /** A record whose bot is connected, left of or at the visited count, is not its end. */
  lemma VisitedPast(sel: seq<ScheduleRecord>, bots: map<string, Bot>, i: nat)
    requires i <= VisitedCount(sel, bots) && i < |sel| && sel[i].botId in bots
    ensures i < VisitedCount(sel, bots)
  {
  }

  /** The queries of the first `i` visited records, at the clock readings
      `clock(0)`, ..., `clock(i - 1)`. */
  function VisitQueries(sel: seq<ScheduleRecord>, bots: map<string, Bot>, clock: nat -> DateTime,
                        toUtc: DateTime -> DateTime, i: nat): (qs: seq<RecordsQuery>)
    requires i <= VisitedCount(sel, bots)
    ensures |qs| == i
    ensures forall k :: 0 <= k < i ==> qs[k] == QueryFor(sel[k], bots[sel[k].botId], clock(k), toUtc)
  {
    if i == 0 then []
    else VisitQueries(sel, bots, clock, toUtc, i - 1) + [QueryFor(sel[i - 1], bots[sel[i - 1].botId], clock(i - 1), toUtc)]
  }

  /** What one query sends: the rendered image when it is non-empty. */
  function Delivery(q: RecordsQuery, fetch: RecordsQuery -> seq<string>,
                    render: seq<string> -> Option<seq<bv8>>): seq<GroupImage>
  {
    match render(fetch(q))
    case Some(b) => if b != [] then [GroupImage(q.groupId, b)] else []
    case None => []
  }

  /** Everything the queries send, in order. */
  function Deliveries(qs: seq<RecordsQuery>, fetch: RecordsQuery -> seq<string>,
                      render: seq<string> -> Option<seq<bv8>>): seq<GroupImage>
  {
    if qs == [] then []
    else Deliveries(qs[..|qs| - 1], fetch, render) + Delivery(qs[|qs| - 1], fetch, render)
  }

  lemma DeliveriesSnoc(qs: seq<RecordsQuery>, q: RecordsQuery, fetch: RecordsQuery -> seq<string>,
                       render: seq<string> -> Option<seq<bv8>>)
    ensures Deliveries(qs + [q], fetch, render) == Deliveries(qs, fetch, render) + Delivery(q, fetch, render)
  {
    SnocPrefix(qs, q);
  }

  /** `run_task(t)`: for each record scheduled at `t`, look up its bot, take
      the clock, fetch today's messages of the group without the bot's own,
      render them and send a non-empty image. `clock(i)` is the time read for
      the `i`-th visited record, `toUtc` the conversion to UTC, `fetch` the
      message store and `render` the word-cloud renderer. `raised` reports
      that a bot was missing, which ends the task. */
  method RunTask(t: TimeOfDay, store: seq<ScheduleRecord>, bots: map<string, Bot>,
                 clock: nat -> DateTime, toUtc: DateTime -> DateTime,
                 fetch: RecordsQuery -> seq<string>, render: seq<string> -> Option<seq<bv8>>)
    returns (queries: seq<RecordsQuery>, sent: seq<GroupImage>, raised: bool)
    ensures var sel := Selected(store, t);
      && |queries| == VisitedCount(sel, bots)
      && (forall i :: 0 <= i < |queries| ==> queries[i] == QueryFor(sel[i], bots[sel[i].botId], clock(i), toUtc))
      && sent == Deliveries(queries, fetch, render)
      && (raised <==> |queries| < |sel|)
  {
    var schedules := Selected(store, t);
    ghost var n := VisitedCount(schedules, bots);
    queries, sent, raised := [], [], false;
    var i := 0;
    while i < |schedules|
      invariant 0 <= i <= n
      invariant |queries| == i
      invariant queries == VisitQueries(schedules, bots, clock, toUtc, i)
      invariant sent == Deliveries(queries, fetch, render)
    {
      var schedule := schedules[i];
      if schedule.botId !in bots {
        raised := true;
        return;
      }
      VisitedPast(schedules, bots, i);
      var bot := bots[schedule.botId];
      var query, delivered := Visit(schedule, bot, clock(i), toUtc, fetch, render);
      DeliveriesSnoc(queries, query, fetch, render);
      queries := queries + [query];
      sent := sent + delivered;
      i := i + 1;
    }
  }

  /** `run_task(t)` as written. `get_wordcloud` takes the messages and a
      `mask_key`, and the task passes only the messages, so the call raises
      `TypeError` right after the first visited record's messages are
      fetched. The loop thus ends in its first pass: at `get_bot` when that
      record's bot is not connected, else after one query, and no image is
      ever sent. */
  method RunTaskAsWritten(t: TimeOfDay, store: seq<ScheduleRecord>, bots: map<string, Bot>,
                          clock: nat -> DateTime, toUtc: DateTime -> DateTime)
    returns (queries: seq<RecordsQuery>, sent: seq<GroupImage>, raised: bool)
    ensures var sel := Selected(store, t);
      && queries == (if sel != [] && sel[0].botId in bots
                     then [QueryFor(sel[0], bots[sel[0].botId], clock(0), toUtc)] else [])
      && sent == []
      && (raised <==> sel != [])
  {
    var schedules := Selected(store, t);
    queries, sent, raised := [], [], false;
    for i := 0 to |schedules|
      invariant i == 0
    {
      var schedule := schedules[i];
      if schedule.botId !in bots {
        raised := true;
        return;
      }
      var bot := bots[schedule.botId];
      var dt := clock(i);
      var start := dt.(hour := 0, minute := 0, second := 0, microsecond := 0);
      queries := queries + [RecordsQuery(schedule.groupId, bot.selfId, toUtc(start), toUtc(dt))];
      // the renderer call is missing its `mask_key` argument
      raised := true;
      return;
    }
  }

  /** Where the task as written sends nothing, the intended task sends an
      image: one connected record at the fired time whose messages render to
      a non-empty image is enough. */
  lemma IntendedRunTaskSends(store: seq<ScheduleRecord>, t: TimeOfDay, bots: map<string, Bot>,
                             clock: nat -> DateTime, toUtc: DateTime -> DateTime,
                             fetch: RecordsQuery -> seq<string>, render: seq<string> -> Option<seq<bv8>>)
    requires Selected(store, t) != [] && Selected(store, t)[0].botId in bots
    requires Renders(QueryFor(Selected(store, t)[0], bots[Selected(store, t)[0].botId], clock(0), toUtc), fetch, render)
    ensures var sel := Selected(store, t);
      Deliveries(VisitQueries(sel, bots, clock, toUtc, VisitedCount(sel, bots)), fetch, render) != []
  {
    var sel := Selected(store, t);
    var qs := VisitQueries(sel, bots, clock, toUtc, VisitedCount(sel, bots));
    DeliveriesCount(qs, fetch, render);
    assert 0 in RenderedIndices(qs, fetch, render);
  }

  /** One visited record: the clock reading `dt` gives today's range, the
      group's messages in it are rendered, and a non-empty image is sent. */
  method Visit(schedule: ScheduleRecord, bot: Bot, dt: DateTime, toUtc: DateTime -> DateTime,
               fetch: RecordsQuery -> seq<string>, render: seq<string> -> Option<seq<bv8>>)
    returns (query: RecordsQuery, delivered: seq<GroupImage>)
    ensures query == QueryFor(schedule, bot, dt, toUtc)
    ensures query.groupId == schedule.groupId && query.excludeUserId == bot.selfId
    ensures delivered == Delivery(query, fetch, render)
  {
    var start := dt.(hour := 0, minute := 0, second := 0, microsecond := 0);
    var stop := dt;
    query := RecordsQuery(schedule.groupId, bot.selfId, toUtc(start), toUtc(stop));
    var messages := fetch(query);
    var image := render(messages);
    delivered := [];
    if image.Some? && image.value != [] {
      delivered := [GroupImage(schedule.groupId, image.value)];
    }
  }

  /** Each query covers midnight of its clock reading up to that reading,
      and the start is at most the stop. */
  lemma TodayBounds(now: PyDateTime)
    ensures Today(now).0 == Midnight(now) && Today(now).0.InRange()
    ensures Instant(Today(now).0) <= Instant(Today(now).1)
    ensures Instant(Today(now).1) - Instant(Today(now).0) < MicrosPerDay
  {
    MidnightBounds(now);
  }

  /** The task's range is the range of the 今日 command. */
  lemma TodayIsTodayCommand(now: PyDateTime)
    ensures TimeRange.KeywordBranch(TimeRange.Today, now).start == Some(Today(now).0)
    ensures TimeRange.KeywordBranch(TimeRange.Today, now).stop == Some(Today(now).1)
  {
  }

  /** Does query `q` render to a non-empty image? */
  predicate Renders(q: RecordsQuery, fetch: RecordsQuery -> seq<string>, render: seq<string> -> Option<seq<bv8>>) {
    render(fetch(q)).Some? && render(fetch(q)).value != []
  }

  /** The positions of the queries that render to a non-empty image. */
  function RenderedIndices(qs: seq<RecordsQuery>, fetch: RecordsQuery -> seq<string>,
                           render: seq<string> -> Option<seq<bv8>>): set<int>
  {
    set i | 0 <= i < |qs| && Renders(qs[i], fetch, render)
  }

  /** Only non-empty images are sent, each to a group that was queried. */
  lemma {:induction false} DeliveriesToQueried(qs: seq<RecordsQuery>, fetch: RecordsQuery -> seq<string>,
                                               render: seq<string> -> Option<seq<bv8>>)
    ensures forall g :: g in Deliveries(qs, fetch, render) ==>
      g.image != [] && exists q :: q in qs && q.groupId == g.groupId
  {
    if qs != [] {
      var init, last := qs[..|qs| - 1], qs[|qs| - 1];
      DeliveriesToQueried(init, fetch, render);
      forall g | g in Deliveries(qs, fetch, render)
        ensures g.image != [] && exists q :: q in qs && q.groupId == g.groupId
      {
        if g in Deliveries(init, fetch, render) {
          var q :| q in init && q.groupId == g.groupId;
          assert q in qs;
        } else {
          assert g in Delivery(last, fetch, render);
          assert last in qs;
        }
      }
    }
  }

  /** The last query adds its own position exactly when it renders. */
  lemma RenderedIndicesSnoc(qs: seq<RecordsQuery>, fetch: RecordsQuery -> seq<string>,
                            render: seq<string> -> Option<seq<bv8>>)
    requires qs != []
    ensures |RenderedIndices(qs, fetch, render)| ==
      |RenderedIndices(qs[..|qs| - 1], fetch, render)| + (if Renders(qs[|qs| - 1], fetch, render) then 1 else 0)
  {
    var init := qs[..|qs| - 1];
    var s0 := RenderedIndices(init, fetch, render);
    var s1 := RenderedIndices(qs, fetch, render);
    var n := |qs| - 1;
    var added: set<int> := if Renders(qs[n], fetch, render) then {n} else {};
    forall i ensures i in s1 <==> i in s0 + added {
      if 0 <= i < n { assert init[i] == qs[i]; }
    }
    assert s1 == s0 + added;
    assert n !in s0;
  }

  /** One image is sent for every query that renders to a non-empty image. */
  lemma {:induction false} DeliveriesCount(qs: seq<RecordsQuery>, fetch: RecordsQuery -> seq<string>,
                                           render: seq<string> -> Option<seq<bv8>>)
    ensures |Deliveries(qs, fetch, render)| == |RenderedIndices(qs, fetch, render)|
  {
    if qs != [] {
      var init, last := qs[..|qs| - 1], qs[|qs| - 1];
      DeliveriesCount(init, fetch, render);
      RenderedIndicesSnoc(qs, fetch, render);
      assert |Delivery(last, fetch, render)| == if Renders(last, fetch, render) then 1 else 0;
    }
  }
}
