/**
 * The event pipeline of plugins/gerritbot/gerritbot.py: the known event
 * types, the counter tables, the dispatcher `process_event`, the two
 * decorators `filter_by_email` and `filter_by_prior` around the
 * notification handlers, the `gerrit_stats` report and the consumer loop
 * that drains the work queue.
 *
 * The functions below say what one call does to the bot's state (counters,
 * the cache of seen change ids and the cards sent so far); the class
 * `GerritBotPlugin` performs the same steps on its fields and is proved to
 * agree with them.
 */
module GerritBot {
  import opened Text
  import opened Values
  import opened Events
  import opened Sorting
  import EmailFilter

  // ---------------------------------------------------------------------------
  // Constants

  /** `GERRIT_EVENTS`: every event type Gerrit sends, and the class that parses it, if any. */
  const GerritEvents: map<string, Option<EventClass>> := map[
    "change-abandoned" := None,
    "change-merged" := None,
    "change-restored" := None,
    "comment-added" := Some(CommentAddedClass),
    "draft-published" := None,
    "merge-failed" := None,
    "patchset-created" := Some(PatchSetCreatedClass),
    "patchset-notified" := None,
    "project-created" := None,
    "ref-replicated" := None,
    "ref-replication-done" := None,
    "ref-updated" := None,
    "reviewer-added" := None,
    "topic-changed" := None
  ]

  const EventTypes := "event_types"
  const Reviewers := "reviewers"
  const Uploaders := "uploaders"
  const Projects := "projects"

  /** A counter table: a `defaultdict(int)`, absent keys counting 0. */
  type Counter = map<Key, nat>

  /** `DEF_STATS`: four empty counter tables. */
  const DefStats: map<string, Counter> := map[
    EventTypes := map[], Reviewers := map[], Uploaders := map[], Projects := map[]]

  /** The table names of `DEF_STATS` in sorted order. */
  const DefaultTables: seq<string> := [EventTypes, Projects, Reviewers, Uploaders]

  /** `GERRIT_EVENTS.get(t)`. */
  function EventClassFor(t: Json): (r: Option<EventClass>)
    ensures r.Some? ==> t.JStr?
  {
    if t.JStr? && t.s in GerritEvents then GerritEvents[t.s] else None
  }

  /** `"process_%s" % event_type.replace("-", "_")`. */
  function HandlerName(eventType: string): string {
    "process_" + ReplaceChar(eventType, '-', '_')
  }

  // ---------------------------------------------------------------------------
  // State

  datatype Config = Config(
    emailSuffixes: seq<string>, emails: seq<string>, projects: seq<string>, includeCommitBody: bool)

  /**
   * The chat framework: the rooms the bot is in and whether rendering the
   * template for an event raises.
   */
  datatype Host = Host(rooms: seq<string>, renderFails: Event -> bool)

  /** A `send_card` call: the room, the link, the template rendered and the optional body. */
  datatype Card = Card(to: string, link: Json, template: string, event: Event, body: Option<Json>)

  /** What one event can change: the counters, `seen_reviews` and the cards sent. */
  datatype Bot = Bot(statistics: map<string, Counter>, seen: map<Key, bool>, outbox: seq<Card>)

  /** How a decorated handler call ended. */
  datatype HandlerResult = Sent | EmailRejected | SeenBefore | HandlerRaised(error: Exc)

  /** How `process_event` ended; `Escaped` is an exception it does not catch. */
  datatype Outcome = NoType | Discarded | ProjectFiltered | Handled(result: HandlerResult) | Escaped(error: Exc)

  function Table(stats: map<string, Counter>, name: string): Counter {
    if name in stats then stats[name] else map[]
  }

  function Count(table: Counter, k: Key): nat {
    if k in table then table[k] else 0
  }

  /** `statistics[name][k] += 1`. */
  function Bump(stats: map<string, Counter>, name: string, k: Key): map<string, Counter> {
    var t := Table(stats, name);
    stats[name := t[k := Count(t, k) + 1]]
  }

  // ---------------------------------------------------------------------------
  // filter_by_email

  /** The four emails the decorator collects, in order. */
  function Candidates(ev: Event): seq<Json> {
    [ev.change.owner.email, ev.patchSet.author.email, ev.patchSet.uploader.email,
     match ev
     case PatchSetCreated(_, _, u, _) => u.email
     case CommentAdded(a, _, _, _, _) => a.email]
  }

  /** The values of `vs` that are not `None`, in order. */
  function NonNull(vs: seq<Json>): (r: seq<Json>)
    ensures forall x :: x in r <==> x in vs && x != JNull
  {
    if vs == [] then []
    else NonNull(vs[..|vs| - 1]) + (if vs[|vs| - 1] == JNull then [] else [vs[|vs| - 1]])
  }

  /**
   * What `filter_by_email` decides: building the set of candidates raises
   * `TypeError` on an unhashable one, then the suffix and allow-list loops run.
   */
  function EmailGate(cfg: Config, ev: Event): Result<bool> {
    var incoming := Candidates(ev);
    if exists i :: 0 <= i < |incoming| && HashKey(incoming[i]).Err? then Err(TypeError)
    else EmailFilter.Decision(NonNull(incoming), cfg.emailSuffixes, cfg.emails)
  }

  // ---------------------------------------------------------------------------
  // process_comment_added, process_patchset_created and filter_by_prior

  /** `process_comment_added` renders "comment", `process_patchset_created` "proposal". */
  function TemplateFor(ev: Event): (name: string)
    ensures name == "comment" <==> ev.CommentAdded?
  {
    if ev.CommentAdded? then "comment" else assert |"proposal"| != |"comment"|; "proposal"
  }

  /** The cards the handler body sends, one per room. */
  function Cards(cfg: Config, rooms: seq<string>, ev: Event): (cards: seq<Card>)
    ensures |cards| == |rooms|
    ensures forall i :: 0 <= i < |rooms| ==> cards[i].to == rooms[i] && cards[i].link == ev.change.url
    ensures forall i :: 0 <= i < |rooms| ==>
      && cards[i].event == ev
      && (cards[i].template == "comment" <==> ev.CommentAdded?)
      && (cards[i].body.Some? <==> ev.PatchSetCreated? && cfg.includeCommitBody)
      && (cards[i].body.Some? ==> cards[i].body.value == ev.change.commitMessage)
  {
    var body := if ev.PatchSetCreated? && cfg.includeCommitBody then Some(ev.change.commitMessage) else None;
    var template := TemplateFor(ev);
    seq(|rooms|, i requires 0 <= i < |rooms| => Card(rooms[i], ev.change.url, template, ev, body))
  }

  /** The handler body: render the template (which may raise), then send the cards. */
  function Notify(cfg: Config, host: Host, outbox: seq<Card>, ev: Event): Result<seq<Card>> {
    if host.renderFails(ev) then Err(RenderError) else Ok(outbox + Cards(cfg, host.rooms, ev))
  }

  /**
   * `filter_by_prior` around the handler body: an event without change id
   * runs the body; one whose id is in a non-empty cache is dropped; any other
   * runs the body and only then records its id.
   */
  function PriorGate(cfg: Config, host: Host, bot: Bot, ev: Event): (Bot, HandlerResult) {
    var id := ev.change.id;
    if id == JNull then
      match Notify(cfg, host, bot.outbox, ev)
      case Err(e) => (bot, HandlerRaised(e))
      case Ok(outbox) => (bot.(outbox := outbox), Sent)
    else if bot.seen != map[] && HashKey(id).Err? then (bot, HandlerRaised(TypeError))
    else if bot.seen != map[] && HashKey(id).value in bot.seen then (bot, SeenBefore)
    else
      match Notify(cfg, host, bot.outbox, ev)
      case Err(e) => (bot, HandlerRaised(e))
      case Ok(outbox) =>
        match HashKey(id)
        case Err(e) => (bot.(outbox := outbox), HandlerRaised(e))
        case Ok(k) => (bot.(outbox := outbox, seen := bot.seen[k := true]), Sent)
  }

  /** A decorated handler: `filter_by_email` outside, `filter_by_prior` inside. */
  function Handling(cfg: Config, host: Host, bot: Bot, ev: Event): (Bot, HandlerResult) {
    match EmailGate(cfg, ev)
    case Err(e) => (bot, HandlerRaised(e))
    case Ok(pass) => if pass then PriorGate(cfg, host, bot, ev) else (bot, EmailRejected)
  }

  // ---------------------------------------------------------------------------
  // process_event

  /** The project passes the allow-list: it is known, and listed or the list is empty. */
  predicate ProjectRegistered(projects: seq<string>, project: Json) {
    project != JNull && (projects == [] || (project.JStr? && project.s in projects))
  }

  function CountProject(stats: map<string, Counter>, project: Json): Result<map<string, Counter>> {
    if project == JNull then Ok(stats)
    else
      var k :- HashKey(project);
      Ok(Bump(stats, Projects, k))
  }

  /** The person a parsed event is counted for, and the table counting them. */
  function Actor(ev: Event): Json {
    match ev
    case CommentAdded(a, _, _, _, _) => a.email
    case PatchSetCreated(_, _, u, _) => u.email
  }

  function ActorTable(ev: Event): string {
    if ev.CommentAdded? then Reviewers else Uploaders
  }

  function CountActor(stats: map<string, Counter>, ev: Event): Result<map<string, Counter>> {
    if !Truthy(Actor(ev)) then Ok(stats)
    else
      var k :- HashKey(Actor(ev));
      Ok(Bump(stats, ActorTable(ev), k))
  }

  /** `process_event` after parsing: count project and actor, filter by project, run the handler. */
  function Route(cfg: Config, host: Host, bot: Bot, ev: Event): (Bot, Outcome) {
    var project := ev.change.project;
    match CountProject(bot.statistics, project)
    case Err(e) => (bot, Escaped(e))
    case Ok(s1) =>
      match CountActor(s1, ev)
      case Err(e) => (bot.(statistics := s1), Escaped(e))
      case Ok(s2) =>
        var counted := bot.(statistics := s2);
        if !ProjectRegistered(cfg.projects, project) then (counted, ProjectFiltered)
        else
          var h := Handling(cfg, host, counted, ev);
          (h.0, Handled(h.1))
  }

  /**
   * `process_event` on the decoded payload `details['event']`: popping `type`
   * from a non-dict raises (a list's `pop` wants an index, other values have
   * no `pop`); a missing `type` is the only exception caught before the
   * handler.
   */
  function Dispatch(cfg: Config, host: Host, bot: Bot, payload: Json): (Bot, Outcome) {
    if !payload.JObj? then (bot, Escaped(if payload.JArr? then TypeError else AttributeError))
    else if "type" !in payload.fields then (bot, NoType)
    else
      var t := payload.fields["type"];
      match HashKey(t)
      case Err(e) => (bot, Escaped(e))
      case Ok(k) =>
        var typed := bot.(statistics := Bump(bot.statistics, EventTypes, k));
        match EventClassFor(t)
        case None => (typed, Discarded)
        case Some(cls) =>
          match FromData(cls, JObj(payload.fields - {"type"}))
          case Err(e) => (typed, Escaped(e))
          case Ok(ev) => Route(cfg, host, typed, ev)
  }

  // ---------------------------------------------------------------------------
  // loop_process_events

  datatype Item = Payload(details: Json) | Tombstone

  /** How the consumer loop ends: at the sentinel, by an escaping exception, on an empty queue (where `get` blocks), or because the plugin is dying. */
  datatype LoopExit = Stopped | Died(error: Exc) | Starved | Halted

  datatype Consumer = Consumer(bot: Bot, queue: seq<Item>, tasksDone: nat)

  /**
   * `loop_process_events`: take items in order, calling `task_done` once per
   * item; stop after the sentinel or when `process_event` raises (the
   * `finally` still counts the item).
   */
  function Drain(cfg: Config, host: Host, c: Consumer, dying: bool): (Consumer, LoopExit)
    decreases |c.queue|
  {
    if dying then (c, Halted)
    else if c.queue == [] then (c, Starved)
    else
      var rest := c.queue[1..];
      match c.queue[0]
      case Tombstone => (Consumer(c.bot, rest, c.tasksDone + 1), Stopped)
      case Payload(p) =>
        var d := Dispatch(cfg, host, c.bot, p);
        var next := Consumer(d.0, rest, c.tasksDone + 1);
        if d.1.Escaped? then (next, Died(d.1.error)) else Drain(cfg, host, next, dying)
  }

  /** The state after dispatching the payloads of `q` one after another. */
  function Replay(cfg: Config, host: Host, bot: Bot, q: seq<Item>): Bot
    requires forall i :: 0 <= i < |q| ==> q[i].Payload?
    decreases |q|
  {
    if q == [] then bot else Replay(cfg, host, Dispatch(cfg, host, bot, q[0].details).0, q[1..])
  }

  /** No payload of `q` raises out of `process_event` when dispatched in order. */
  predicate Quiet(cfg: Config, host: Host, bot: Bot, q: seq<Item>)
    requires forall i :: 0 <= i < |q| ==> q[i].Payload?
    decreases |q|
  {
    q == [] ||
    (var d := Dispatch(cfg, host, bot, q[0].details);
     !d.1.Escaped? && Quiet(cfg, host, d.0, q[1..]))
  }

  // ---------------------------------------------------------------------------
  // gerrit_stats

  datatype Row = Row(key: Key, count: nat) | NotAvailable

  /** One table of the report (the header is its title column) or the newline after it. */
  datatype Piece = TableText(header: string, rows: seq<Row>) | Newline

  /** The tables asked for: the words of `args`, or every table in sorted order. */
  function RequestedTables(args: string): seq<string> {
    if args != [] && Words(args) != [] then Words(args) else DefaultTables
  }

  /** The requested names that are tables, in order. */
  function Selected(names: seq<string>, stats: map<string, Counter>): (r: seq<string>)
    ensures |r| <= |names|
    ensures forall n :: n in r <==> n in names && n in stats
  {
    if names == [] then []
    else
      var last := names[|names| - 1];
      Selected(names[..|names| - 1], stats) + (if last in stats then [last] else [])
  }

  /** `tbl_name.replace("_", " ").title()`. */
  function Header(name: string): string {
    Title(ReplaceChar(name, '_', ' '))
  }

  /** The rows of a table: one N/A row if it is empty, else every key once, increasing, with its count. */
  predicate TableRows(table: Counter, rows: seq<Row>) {
    if table == map[] then rows == [NotAvailable]
    else
      && |rows| == |table|
      && (forall i :: 0 <= i < |rows| ==> rows[i].Row? && rows[i].key in table && rows[i].count == table[rows[i].key])
      && (forall i, j :: 0 <= i < j < |rows| ==> KeyLess(rows[i].key, rows[j].key))
      && (forall k :: k in table ==> exists i :: 0 <= i < |rows| && rows[i] == Row(k, table[k]))
  }

  /** `pieces` is the report on `names`: for each table in turn, its header and rows, then a newline. */
  predicate Report(pieces: seq<Piece>, names: seq<string>, stats: map<string, Counter>)
    requires forall n :: n in names ==> n in stats
  {
    if names == [] then pieces == []
    else
      var last := names[|names| - 1];
      var n := |pieces|;
      && n >= 2
      && Report(pieces[..n - 2], names[..|names| - 1], stats)
      && pieces[n - 2].TableText?
      && pieces[n - 2].header == Header(last)
      && TableRows(stats[last], pieces[n - 2].rows)
      && pieces[n - 1] == Newline
  }

  // ---------------------------------------------------------------------------
  // Properties of the event types and counters

  /** Only `comment-added` and `patchset-created` are parsed, each by its own class. */
  lemma KnownClasses(t: Json)
    ensures EventClassFor(t) == Some(CommentAddedClass) <==> t == JStr("comment-added")
    ensures EventClassFor(t) == Some(PatchSetCreatedClass) <==> t == JStr("patchset-created")
  {
  }

  /** The handler name derived from each parsed type is the method that handles it. */
  lemma HandlerNames()
    ensures HandlerName("comment-added") == "process_comment_added"
    ensures HandlerName("patchset-created") == "process_patchset_created"
  {
  }

  /** `DefaultTables` is `sorted(DEF_STATS)`. */
  lemma DefaultTablesSorted()
    ensures forall i, j :: 0 <= i < j < |DefaultTables| ==> StrLess(DefaultTables[i], DefaultTables[j])
    ensures forall n :: n in DefaultTables <==> n in DefStats
  {
  }

  lemma BumpKeepsTables(stats: map<string, Counter>, name: string, k: Key)
    requires name in stats
    ensures Bump(stats, name, k).Keys == stats.Keys
  {
  }

  /** The handlers send cards and fill the cache but never count. */
  lemma HandlingKeepsCounters(cfg: Config, host: Host, bot: Bot, ev: Event)
    ensures Handling(cfg, host, bot, ev).0.statistics == bot.statistics
  {
  }

  /** `projects[project] += 1` unless the project is `None`; an unhashable project raises. */
  lemma CountProjectCounts(stats: map<string, Counter>, project: Json)
    ensures CountProject(stats, project).Err? <==> project != JNull && HashKey(project).Err?
    ensures CountProject(stats, project).Ok? ==>
      var after := CountProject(stats, project).value;
      && (forall k :: Count(Table(after, Projects), k) == Count(Table(stats, Projects), k) +
            (if project != JNull && HashKey(project) == Ok(k) then 1 else 0))
      && (forall name :: name != Projects ==> Table(after, name) == Table(stats, name))
  {
  }

  /** The actor's table goes up by one at a truthy email; an unhashable one raises. */
  lemma CountActorCounts(stats: map<string, Counter>, ev: Event)
    ensures CountActor(stats, ev).Err? <==> Truthy(Actor(ev)) && HashKey(Actor(ev)).Err?
    ensures CountActor(stats, ev).Ok? ==>
      var after := CountActor(stats, ev).value;
      && (forall k :: Count(Table(after, ActorTable(ev)), k) == Count(Table(stats, ActorTable(ev)), k) +
            (if Truthy(Actor(ev)) && HashKey(Actor(ev)) == Ok(k) then 1 else 0))
      && (forall name :: name != ActorTable(ev) ==> Table(after, name) == Table(stats, name))
  {
  }

  /**
   * After parsing, the project is counted when it is not `None`, the comment
   * author or the uploader when their email is truthy, and no other table
   * changes; the only exceptions are unhashable project or email values.
   */
  lemma {:induction false} RouteCounts(cfg: Config, host: Host, bot: Bot, ev: Event)
    ensures Route(cfg, host, bot, ev).1.Escaped? <==>
      || (ev.change.project != JNull && HashKey(ev.change.project).Err?)
      || (Truthy(Actor(ev)) && HashKey(Actor(ev)).Err?)
    ensures !Route(cfg, host, bot, ev).1.Escaped? ==>
      var before := bot.statistics;
      var after := Route(cfg, host, bot, ev).0.statistics;
      && (forall k :: Count(Table(after, Projects), k) == Count(Table(before, Projects), k) +
            (if ev.change.project != JNull && HashKey(ev.change.project) == Ok(k) then 1 else 0))
      && (forall k :: Count(Table(after, Reviewers), k) == Count(Table(before, Reviewers), k) +
            (if ev.CommentAdded? && Truthy(ev.author.email) && HashKey(ev.author.email) == Ok(k) then 1 else 0))
      && (forall k :: Count(Table(after, Uploaders), k) == Count(Table(before, Uploaders), k) +
            (if ev.PatchSetCreated? && Truthy(ev.uploader.email) && HashKey(ev.uploader.email) == Ok(k) then 1 else 0))
      && (forall name :: name != Projects && name != Reviewers && name != Uploaders ==>
            Table(after, name) == Table(before, name))
  {
    var project := ev.change.project;
    CountProjectCounts(bot.statistics, project);
    var p := CountProject(bot.statistics, project);
    if p.Ok? {
      CountActorCounts(p.value, ev);
      var a := CountActor(p.value, ev);
      if a.Ok? {
        var s2 := a.value;
        assert Route(cfg, host, bot, ev).0.statistics == s2 by {
          if ProjectRegistered(cfg.projects, project) {
            HandlingKeepsCounters(cfg, host, bot.(statistics := s2), ev);
          }
        }
        assert Table(s2, Projects) == Table(p.value, Projects);
      }
    }
  }

  /** `event_types` goes up by exactly one at the type's key, whatever happens afterwards. */
  lemma {:induction false} EventTypeCounted(cfg: Config, host: Host, bot: Bot, fields: map<string, Json>)
    requires "type" in fields && HashKey(fields["type"]).Ok?
    ensures var k := HashKey(fields["type"]).value;
            var before := Table(bot.statistics, EventTypes);
            var after := Table(Dispatch(cfg, host, bot, JObj(fields)).0.statistics, EventTypes);
            && Count(after, k) == Count(before, k) + 1
            && forall k' :: k' != k ==> Count(after, k') == Count(before, k')
  {
    var t := fields["type"];
    var k := HashKey(t).value;
    var typed := bot.(statistics := Bump(bot.statistics, EventTypes, k));
    var cls := EventClassFor(t);
    if cls.Some? {
      var parsed := FromData(cls.value, JObj(fields - {"type"}));
      if parsed.Ok? {
        RouteCounts(cfg, host, typed, parsed.value);
        var r := Route(cfg, host, typed, parsed.value);
        if r.1.Escaped? {
          var project := parsed.value.change.project;
          if !(project != JNull && HashKey(project).Err?) {
            assert r.0.statistics == CountProject(typed.statistics, project).value;
          }
        }
      }
    }
  }

  /** A payload without `type` changes nothing. */
  lemma NoTypeNoOp(cfg: Config, host: Host, bot: Bot, fields: map<string, Json>)
    requires "type" !in fields
    ensures Dispatch(cfg, host, bot, JObj(fields)) == (bot, NoType)
  {
  }

  /**
   * A type is discarded exactly when it is hashable and names no class; then
   * only `event_types` changed.
   */
  lemma DiscardedUnknown(cfg: Config, host: Host, bot: Bot, payload: Json)
    ensures var d := Dispatch(cfg, host, bot, payload);
      d.1 == Discarded <==>
        payload.JObj? && "type" in payload.fields && HashKey(payload.fields["type"]).Ok?
        && EventClassFor(payload.fields["type"]).None?
    ensures var d := Dispatch(cfg, host, bot, payload);
      d.1 == Discarded ==>
        && d.0.seen == bot.seen && d.0.outbox == bot.outbox
        && forall name :: name != EventTypes ==> Table(d.0.statistics, name) == Table(bot.statistics, name)
  {
  }

  /** Past the counters, the handler runs iff the project passes the allow-list. */
  lemma ProjectFilter(cfg: Config, host: Host, bot: Bot, ev: Event)
    requires !Route(cfg, host, bot, ev).1.Escaped?
    ensures Route(cfg, host, bot, ev).1.Handled? <==> ProjectRegistered(cfg.projects, ev.change.project)
    ensures !ProjectRegistered(cfg.projects, ev.change.project) ==>
      var r := Route(cfg, host, bot, ev);
      r.1 == ProjectFiltered && r.0.seen == bot.seen && r.0.outbox == bot.outbox
  {
  }

  /**
   * What escapes `process_event` is raised before any handler runs (payload
   * shape, hashing, parsing): the cache and the cards sent are untouched.
   */
  lemma {:induction false} EscapeBeforeHandler(cfg: Config, host: Host, bot: Bot, payload: Json)
    requires Dispatch(cfg, host, bot, payload).1.Escaped?
    ensures Dispatch(cfg, host, bot, payload).0.seen == bot.seen
    ensures Dispatch(cfg, host, bot, payload).0.outbox == bot.outbox
  {
    if payload.JObj? && "type" in payload.fields {
      var t := payload.fields["type"];
      if HashKey(t).Ok? && EventClassFor(t).Some? {
        var typed := bot.(statistics := Bump(bot.statistics, EventTypes, HashKey(t).value));
        var parsed := FromData(EventClassFor(t).value, JObj(payload.fields - {"type"}));
        if parsed.Ok? {
          assert Route(cfg, host, typed, parsed.value).1.Escaped?;
        }
      }
    }
  }

  /** Counting and handling a parsed event keeps the four tables of `DEF_STATS`, and only them. */
  lemma RouteKeepsTables(cfg: Config, host: Host, bot: Bot, ev: Event)
    requires bot.statistics.Keys == DefStats.Keys
    ensures Route(cfg, host, bot, ev).0.statistics.Keys == DefStats.Keys
  {
    var p := CountProject(bot.statistics, ev.change.project);
    if p.Ok? && CountActor(p.value, ev).Ok? {
      HandlingKeepsCounters(cfg, host, bot.(statistics := CountActor(p.value, ev).value), ev);
    }
  }

  /** Every dispatch keeps the four tables of `DEF_STATS`, and only them. */
  lemma DispatchKeepsTables(cfg: Config, host: Host, bot: Bot, payload: Json)
    requires bot.statistics.Keys == DefStats.Keys
    ensures Dispatch(cfg, host, bot, payload).0.statistics.Keys == DefStats.Keys
  {
    if payload.JObj? && "type" in payload.fields && HashKey(payload.fields["type"]).Ok? {
      var t := payload.fields["type"];
      var typed := bot.(statistics := Bump(bot.statistics, EventTypes, HashKey(t).value));
      if EventClassFor(t).Some? {
        var parsed := FromData(EventClassFor(t).value, JObj(payload.fields - {"type"}));
        if parsed.Ok? {
          RouteKeepsTables(cfg, host, typed, parsed.value);
        }
      }
    }
  }

  // ---------------------------------------------------------------------------
  // Properties of the decorators

  /**
   * When every candidate email is `None` or a string, the event passes iff no
   * suffix is configured, "*" is one, some candidate ends with a suffix, or
   * some candidate is allow-listed.
   */
  lemma {:induction false} EmailGateMeaning(cfg: Config, ev: Event)
    requires forall c :: c in Candidates(ev) ==> c.JNull? || c.JStr?
    ensures EmailGate(cfg, ev) == Ok(
      || cfg.emailSuffixes == []
      || "*" in cfg.emailSuffixes
      || (exists c, x :: c in Candidates(ev) && c.JStr? && x in cfg.emailSuffixes && EndsWith(c.s, x))
      || (exists c :: c in Candidates(ev) && c.JStr? && c.s in cfg.emails))
  {
    var incoming := Candidates(ev);
    var present := NonNull(incoming);
    forall i | 0 <= i < |incoming| ensures HashKey(incoming[i]).Ok? {
      assert incoming[i] in incoming;
    }
    assert EmailFilter.AllText(present) by {
      forall i | 0 <= i < |present| ensures present[i].JStr? {
        assert present[i] in present;
      }
    }
    EmailFilter.DecisionMeaning(present, cfg.emailSuffixes, cfg.emails);
    assert forall c :: c in present && c.JStr? <==> c in incoming && c.JStr?;
  }

  /** An event rejected by email changes nothing; otherwise the inner decorator decides. */
  lemma EmailRejectedNoOp(cfg: Config, host: Host, bot: Bot, ev: Event)
    ensures Handling(cfg, host, bot, ev).1 == EmailRejected <==> EmailGate(cfg, ev) == Ok(false)
    ensures EmailGate(cfg, ev) == Ok(false) ==> Handling(cfg, host, bot, ev).0 == bot
    ensures EmailGate(cfg, ev) == Ok(true) ==> Handling(cfg, host, bot, ev) == PriorGate(cfg, host, bot, ev)
  {
  }

  /** An id already in the cache is dropped and nothing changes. */
  lemma SeenSuppressed(cfg: Config, host: Host, bot: Bot, ev: Event)
    requires ev.change.id != JNull && HashKey(ev.change.id).Ok? && HashKey(ev.change.id).value in bot.seen
    ensures PriorGate(cfg, host, bot, ev) == (bot, SeenBefore)
  {
  }

  /**
   * An unseen id runs the body first; the id is recorded only when the body
   * returned, so a render failure leaves it unrecorded and sends nothing.
   */
  lemma UnseenRecordedAfterBody(cfg: Config, host: Host, bot: Bot, ev: Event, k: Key)
    requires ev.change.id != JNull && HashKey(ev.change.id) == Ok(k) && k !in bot.seen
    ensures var g := PriorGate(cfg, host, bot, ev);
      if host.renderFails(ev) then g == (bot, HandlerRaised(RenderError))
      else g.1 == Sent && g.0.seen == bot.seen[k := true] && g.0.outbox == bot.outbox + Cards(cfg, host.rooms, ev)
  {
  }

  /** An event without change id never reads or writes the cache. */
  lemma NullIdBypassesCache(cfg: Config, host: Host, bot: Bot, ev: Event)
    requires ev.change.id == JNull
    ensures PriorGate(cfg, host, bot, ev).0.seen == bot.seen
    ensures PriorGate(cfg, host, bot, ev).1 == (if host.renderFails(ev) then HandlerRaised(RenderError) else Sent)
  {
  }

  /** The cache only ever gains the event's own id, and only on a completed send. */
  lemma PriorGateCache(cfg: Config, host: Host, bot: Bot, ev: Event)
    ensures var g := PriorGate(cfg, host, bot, ev);
      g.0.seen != bot.seen ==>
        g.1 == Sent && HashKey(ev.change.id).Ok? && g.0.seen == bot.seen[HashKey(ev.change.id).value := true]
    ensures var g := PriorGate(cfg, host, bot, ev);
      g.1 == Sent ==> g.0.outbox == bot.outbox + Cards(cfg, host.rooms, ev)
    ensures var g := PriorGate(cfg, host, bot, ev);
      g.1 != Sent ==> g.0.seen == bot.seen
  {
  }

  // ---------------------------------------------------------------------------
  // Properties of the consumer loop

  /** The loop dequeues a prefix of the queue and calls `task_done` once per item dequeued. */
  lemma {:induction false} DrainTaskDone(cfg: Config, host: Host, c: Consumer, dying: bool)
    ensures var d := Drain(cfg, host, c, dying);
      && |d.0.queue| <= |c.queue|
      && d.0.queue == c.queue[|c.queue| - |d.0.queue|..]
      && d.0.tasksDone == c.tasksDone + (|c.queue| - |d.0.queue|)
    decreases |c.queue|
  {
    if !dying && c.queue != [] && c.queue[0].Payload? {
      var d := Dispatch(cfg, host, c.bot, c.queue[0].details);
      if !d.1.Escaped? {
        var next := Consumer(d.0, c.queue[1..], c.tasksDone + 1);
        DrainTaskDone(cfg, host, next, dying);
        var e := Drain(cfg, host, next, dying);
        assert c.queue[1..][|next.queue| - |e.0.queue|..] == c.queue[|c.queue| - |e.0.queue|..];
      }
    }
  }

  /** Every item dequeued before the last is a payload; the loop stopped iff the last was the sentinel. */
  lemma {:induction false} DrainStopsAtTombstone(cfg: Config, host: Host, c: Consumer, dying: bool)
    ensures var d := Drain(cfg, host, c, dying);
      var n := |c.queue| - |d.0.queue|;
      && 0 <= n <= |c.queue|
      && (forall i :: 0 <= i < n - 1 ==> c.queue[i].Payload?)
      && (d.1 == Stopped <==> n > 0 && c.queue[n - 1] == Tombstone)
    decreases |c.queue|
  {
    DrainTaskDone(cfg, host, c, dying);
    if !dying && c.queue != [] && c.queue[0].Payload? {
      var d := Dispatch(cfg, host, c.bot, c.queue[0].details);
      if !d.1.Escaped? {
        var next := Consumer(d.0, c.queue[1..], c.tasksDone + 1);
        DrainStopsAtTombstone(cfg, host, next, dying);
        var e := Drain(cfg, host, next, dying);
        var m := |next.queue| - |e.0.queue|;
        assert forall i :: 0 <= i < m ==> next.queue[i] == c.queue[i + 1];
      }
    }
  }

  /** Payloads are processed in queue order: draining `q1 + q2` is replaying `q1`, then draining `q2`. */
  lemma {:induction false} DrainInOrder(cfg: Config, host: Host, bot: Bot, q1: seq<Item>, q2: seq<Item>, done: nat)
    requires forall i :: 0 <= i < |q1| ==> q1[i].Payload?
    requires Quiet(cfg, host, bot, q1)
    ensures Drain(cfg, host, Consumer(bot, q1 + q2, done), false)
         == Drain(cfg, host, Consumer(Replay(cfg, host, bot, q1), q2, done + |q1|), false)
    decreases |q1|
  {
    if q1 == [] {
      assert q1 + q2 == q2;
    } else {
      var d := Dispatch(cfg, host, bot, q1[0].details);
      assert (q1 + q2)[0] == q1[0];
      assert (q1 + q2)[1..] == q1[1..] + q2;
      DrainInOrder(cfg, host, d.0, q1[1..], q2, done + 1);
    }
  }

  /** The sentinel stops the loop right after the payloads queued before it, which are all processed in order. */
  lemma TombstoneStops(cfg: Config, host: Host, bot: Bot, q1: seq<Item>, q2: seq<Item>, done: nat)
    requires forall i :: 0 <= i < |q1| ==> q1[i].Payload?
    requires Quiet(cfg, host, bot, q1)
    ensures Drain(cfg, host, Consumer(bot, q1 + [Tombstone] + q2, done), false)
         == (Consumer(Replay(cfg, host, bot, q1), q2, done + |q1| + 1), Stopped)
  {
    assert q1 + [Tombstone] + q2 == q1 + ([Tombstone] + q2);
    DrainInOrder(cfg, host, bot, q1, [Tombstone] + q2, done);
    assert ([Tombstone] + q2)[1..] == q2;
  }

  /**
   * When `process_event` raises: a payload that is not a dict, an
   * unhashable type, an event its class cannot parse, or an unhashable
   * project or email while counting. Only a missing `type` is caught, and
   * the handler's own exceptions are caught around it.
   */
  lemma {:induction false} DispatchEscapes(cfg: Config, host: Host, bot: Bot, payload: Json)
    ensures var d := Dispatch(cfg, host, bot, payload);
      d.1.Escaped? <==>
        || !payload.JObj?
        || ("type" in payload.fields &&
            var t := payload.fields["type"];
            || HashKey(t).Err?
            || (EventClassFor(t).Some? &&
                var parsed := FromData(EventClassFor(t).value, JObj(payload.fields - {"type"}));
                || parsed.Err?
                || Route(cfg, host, bot.(statistics := Bump(bot.statistics, EventTypes, HashKey(t).value)), parsed.value).1.Escaped?))
  {
  }

  /**
   * An event whose class cannot parse it escapes with the parser's error,
   * after `event_types` has been bumped and before anything else changes.
   */
  lemma ParseFailureEscapes(cfg: Config, host: Host, bot: Bot, fields: map<string, Json>, e: Exc)
    requires "type" in fields && HashKey(fields["type"]).Ok? && EventClassFor(fields["type"]).Some?
    requires FromData(EventClassFor(fields["type"]).value, JObj(fields - {"type"})) == Err(e)
    ensures Dispatch(cfg, host, bot, JObj(fields))
         == (bot.(statistics := Bump(bot.statistics, EventTypes, HashKey(fields["type"]).value)), Escaped(e))
  {
  }

  /** A `comment-added` payload with no other field escapes with `KeyError('author')`. */
  lemma BareCommentEscapes(cfg: Config, host: Host, bot: Bot)
    ensures Dispatch(cfg, host, bot, JObj(map["type" := JStr("comment-added")])).1 == Escaped(KeyError("author"))
  {
  }

  /**
   * The consumer loop has only `try/finally`: the first payload that raises
   * out of `process_event` ends the thread, with its `task_done` counted and
   * every later item left in the queue.
   */
  lemma EscapeEndsLoop(cfg: Config, host: Host, bot: Bot, q1: seq<Item>, p: Json, q2: seq<Item>, done: nat)
    requires forall i :: 0 <= i < |q1| ==> q1[i].Payload?
    requires Quiet(cfg, host, bot, q1)
    requires Dispatch(cfg, host, Replay(cfg, host, bot, q1), p).1.Escaped?
    ensures var d := Dispatch(cfg, host, Replay(cfg, host, bot, q1), p);
      Drain(cfg, host, Consumer(bot, q1 + [Payload(p)] + q2, done), false)
        == (Consumer(d.0, q2, done + |q1| + 1), Died(d.1.error))
  {
    assert q1 + [Payload(p)] + q2 == q1 + ([Payload(p)] + q2);
    DrainInOrder(cfg, host, bot, q1, [Payload(p)] + q2, done);
    assert ([Payload(p)] + q2)[1..] == q2;
  }

  /** So a payload its class cannot parse kills the consumer with the parser's error. */
  lemma ParseFailureEndsLoop(cfg: Config, host: Host, bot: Bot, q1: seq<Item>, fields: map<string, Json>, e: Exc, q2: seq<Item>, done: nat)
    requires forall i :: 0 <= i < |q1| ==> q1[i].Payload?
    requires Quiet(cfg, host, bot, q1)
    requires "type" in fields && HashKey(fields["type"]).Ok? && EventClassFor(fields["type"]).Some?
    requires FromData(EventClassFor(fields["type"]).value, JObj(fields - {"type"})) == Err(e)
    ensures Drain(cfg, host, Consumer(bot, q1 + [Payload(JObj(fields))] + q2, done), false).1 == Died(e)
    ensures Drain(cfg, host, Consumer(bot, q1 + [Payload(JObj(fields))] + q2, done), false).0.queue == q2
  {
    ParseFailureEscapes(cfg, host, Replay(cfg, host, bot, q1), fields, e);
    EscapeEndsLoop(cfg, host, bot, q1, JObj(fields), q2, done);
  }

  // ---------------------------------------------------------------------------
  // Properties of the report

  /** The keys of a table's rows, in order. */
  function RowKeys(rows: seq<Row>): (keys: seq<Key>)
    requires forall i :: 0 <= i < |rows| ==> rows[i].Row?
    ensures |keys| == |rows| && forall i :: 0 <= i < |rows| ==> keys[i] == rows[i].key
  {
    seq(|rows|, i requires 0 <= i < |rows| => rows[i].key)
  }

  /** The rows of a non-empty table list its keys, each once, increasing. */
  lemma TableRowKeys(table: Counter, rows: seq<Row>)
    requires table != map[] && TableRows(table, rows)
    ensures Increasing(RowKeys(rows))
    ensures forall k :: k in RowKeys(rows) <==> k in table
  {
    var keys := RowKeys(rows);
    forall k | k in table ensures k in keys {
      var i :| 0 <= i < |rows| && rows[i] == Row(k, table[k]);
      assert keys[i] == k;
    }
  }

  /** The rows of a table are determined by it: the report is a function of the counters. */
  lemma {:induction false} TableRowsUnique(table: Counter, rows1: seq<Row>, rows2: seq<Row>)
    requires TableRows(table, rows1) && TableRows(table, rows2)
    ensures rows1 == rows2
  {
    if table != map[] {
      TableRowKeys(table, rows1);
      TableRowKeys(table, rows2);
      var keys1 := RowKeys(rows1);
      var keys2 := RowKeys(rows2);
      IncreasingUnique(keys1, keys2);
      forall i | 0 <= i < |rows1| ensures rows1[i] == rows2[i] {
        assert rows1[i].key == keys1[i] == keys2[i] == rows2[i].key;
      }
    }
  }

  /** Rows built from `sorted(table)` are the table's report rows. */
  lemma RowsOfSortedKeys(table: Counter, keys: seq<Key>, rows: seq<Row>)
    requires table != map[]
    requires Increasing(keys) && (forall k :: k in keys <==> k in table) && |keys| == |table|
    requires |rows| == |keys| && forall m :: 0 <= m < |keys| ==> rows[m] == Row(keys[m], table[keys[m]])
    ensures TableRows(table, rows)
  {
    forall k | k in table ensures exists i :: 0 <= i < |rows| && rows[i] == Row(k, table[k]) {
      var m :| 0 <= m < |keys| && keys[m] == k;
      assert rows[m] == Row(k, table[k]);
    }
  }

  /** The rows of one table: N/A when empty, else `(k, count)` over `sorted(table)`, which raises on mixed keys. */
  method SortedRows(table: Counter) returns (r: Result<seq<Row>>)
    ensures r.Ok? <==> Orderable(table.Keys)
    ensures r.Err? ==> r.error == TypeError
    ensures r.Ok? ==> TableRows(table, r.value)
  {
    if table == map[] {
      return Ok([NotAvailable]);
    }
    if !Orderable(table.Keys) {
      return Err(TypeError);
    }
    var keys := SortedKeys(table.Keys);
    var rows: seq<Row> := [];
    var j := 0;
    while j < |keys|
      invariant 0 <= j <= |keys|
      invariant |rows| == j
      invariant forall m :: 0 <= m < j ==> rows[m] == Row(keys[m], table[keys[m]])
    {
      rows := rows + [Row(keys[j], table[keys[j]])];
      j := j + 1;
    }
    RowsOfSortedKeys(table, keys, rows);
    return Ok(rows);
  }

  lemma SelectedStep(names: seq<string>, i: nat, stats: map<string, Counter>)
    requires i < |names|
    ensures Selected(names[..i + 1], stats)
         == Selected(names[..i], stats) + (if names[i] in stats then [names[i]] else [])
  {
    assert names[..i + 1][..i] == names[..i];
  }

  lemma ReportExtend(pieces: seq<Piece>, names: seq<string>, stats: map<string, Counter>, name: string, rows: seq<Row>)
    requires forall n :: n in names ==> n in stats
    requires Report(pieces, names, stats)
    requires name in stats && TableRows(stats[name], rows)
    ensures Report(pieces + [TableText(Header(name), rows), Newline], names + [name], stats)
  {
    var pieces' := pieces + [TableText(Header(name), rows), Newline];
    var names' := names + [name];
    assert pieces'[..|pieces'| - 2] == pieces;
    assert names'[..|names'| - 1] == names;
  }

  /** One table of `gerrit_stats`: its sorted rows and the blank line after it. */
  method AppendTable(buf: seq<Piece>, ghost done: seq<string>, name: string, stats: map<string, Counter>)
    returns (r: Result<seq<Piece>>)
    requires forall n :: n in done ==> n in stats
    requires Report(buf, done, stats)
    requires name in stats
    ensures r.Ok? <==> Orderable(stats[name].Keys)
    ensures r.Err? ==> r.error == TypeError
    ensures r.Ok? ==> Report(r.value, done + [name], stats)
  {
    var rows := SortedRows(stats[name]);
    if rows.Err? {
      return Err(TypeError);
    }
    ReportExtend(buf, done, stats, name, rows.value);
    return Ok(buf + [TableText(Header(name), rows.value), Newline]);
  }

  /** A selected table whose keys cannot be ordered makes the whole report fail. */
  lemma SelectedBlocks(names: seq<string>, i: nat, stats: map<string, Counter>)
    requires i < |names| && names[i] in stats && !Orderable(stats[names[i]].Keys)
    ensures !forall n :: n in Selected(names, stats) ==> Orderable(stats[n].Keys)
  {
    assert names[i] in Selected(names, stats);
  }

  /** The loop of `gerrit_stats` over the table names. */
  method WriteTables(justTables: seq<string>, stats: map<string, Counter>) returns (r: Result<seq<Piece>>)
    ensures var names := Selected(justTables, stats);
      && (r.Ok? <==> forall n :: n in names ==> Orderable(stats[n].Keys))
      && (r.Err? ==> r.error == TypeError)
      && (r.Ok? ==> Report(r.value, names, stats))
  {
    var buf: seq<Piece> := [];
    ghost var done: seq<string> := [];
    var i := 0;
    while i < |justTables|
      invariant 0 <= i <= |justTables|
      invariant done == Selected(justTables[..i], stats)
      invariant forall n :: n in done ==> Orderable(stats[n].Keys)
      invariant Report(buf, done, stats)
    {
      var name := justTables[i];
      SelectedStep(justTables, i, stats);
      if name in stats {
        var next := AppendTable(buf, done, name, stats);
        if next.Err? {
          SelectedBlocks(justTables, i, stats);
          return Err(TypeError);
        }
        buf := next.value;
        done := done + [name];
      }
      i := i + 1;
    }
    assert justTables[..i] == justTables;
    return Ok(buf);
  }

  // ---------------------------------------------------------------------------
  // The plugin

  /**
   * `set(email for email in incoming_emails if email is not None)`: the
   * emails that are not `None`, or `TypeError` when one cannot be hashed.
   */
  method PresentEmails(incoming: seq<Json>) returns (r: Result<seq<Json>>)
    ensures r.Err? <==> exists i :: 0 <= i < |incoming| && HashKey(incoming[i]).Err?
    ensures r.Err? ==> r.error == TypeError
    ensures r.Ok? ==> r.value == NonNull(incoming)
  {
    var present: seq<Json> := [];
    var i := 0;
    while i < |incoming|
      invariant 0 <= i <= |incoming|
      invariant present == NonNull(incoming[..i])
      invariant forall j :: 0 <= j < i ==> HashKey(incoming[j]).Ok?
    {
      assert incoming[..i + 1][..i] == incoming[..i];
      if incoming[i] != JNull {
        if HashKey(incoming[i]).Err? {
          return Err(TypeError);
        }
        present := present + [incoming[i]];
      }
      i := i + 1;
    }
    assert incoming[..i] == incoming;
    return Ok(present);
  }

  class GerritBotPlugin {
    const config: Config
    const host: Host
    var statistics: map<string, Counter>
    var seenReviews: map<Key, bool>
    var outbox: seq<Card>
    var workQueue: seq<Item>
    var tasksDone: nat
    var dying: bool

    /** The part of the state one event can change. */
    function State(): Bot
      reads this
    {
      Bot(statistics, seenReviews, outbox)
    }

    /** The counter tables are those of `DEF_STATS`. */
    predicate Valid()
      reads this
    {
      statistics.Keys == DefStats.Keys
    }

    /** `__init__` followed by `activate`: fresh counters, an empty cache and an empty queue. */
    constructor (config: Config, host: Host)
      ensures Valid()
      ensures this.config == config && this.host == host
      ensures statistics == DefStats && seenReviews == map[] && outbox == []
      ensures workQueue == [] && tasksDone == 0 && !dying
    {
      this.config := config;
      this.host := host;
      statistics := DefStats;
      seenReviews := map[];
      outbox := [];
      workQueue := [];
      tasksDone := 0;
      dying := false;
    }

    /** `filter_by_email`: collect the candidate emails, build their set, run the suffix and allow-list loops. */
    method FilterByEmail(ev: Event) returns (r: Result<bool>)
      ensures r == EmailGate(config, ev)
    {
      var incoming: seq<Json> := [];
      incoming := incoming + [ev.change.owner.email];
      incoming := incoming + [ev.patchSet.author.email];
      incoming := incoming + [ev.patchSet.uploader.email];
      if ev.PatchSetCreated? {
        incoming := incoming + [ev.uploader.email];
      }
      if ev.CommentAdded? {
        incoming := incoming + [ev.author.email];
      }
      assert incoming == Candidates(ev);
      var present := PresentEmails(incoming);
      if present.Err? {
        return Err(present.error);
      }
      r := EmailFilter.Scan(present.value, config.emailSuffixes, config.emails);
    }

    /**
     * The body of `process_comment_added` / `process_patchset_created`:
     * render the template, then send one card per room, with the commit
     * message as body for a new patch set when configured.
     */
    method SendNotifications(ev: Event) returns (raised: Option<Exc>)
      modifies this`outbox
      ensures match Notify(config, host, old(outbox), ev)
              case Err(e) => raised == Some(e) && outbox == old(outbox)
              case Ok(sent) => raised == None && outbox == sent
    {
      if host.renderFails(ev) {
        return Some(RenderError);
      }
      var rooms := host.rooms;
      ghost var cards := Cards(config, rooms, ev);
      var i := 0;
      while i < |rooms|
        invariant 0 <= i <= |rooms|
        invariant outbox == old(outbox) + cards[..i]
      {
        if ev.PatchSetCreated? && config.includeCommitBody {
          outbox := outbox + [Card(rooms[i], ev.change.url, TemplateFor(ev), ev, Some(ev.change.commitMessage))];
        } else {
          outbox := outbox + [Card(rooms[i], ev.change.url, TemplateFor(ev), ev, None)];
        }
        assert cards[..i + 1] == cards[..i] + [cards[i]];
        i := i + 1;
      }
      assert cards[..i] == cards;
      return None;
    }

    /** `filter_by_prior` around the handler body. */
    method FilterByPrior(ev: Event) returns (r: HandlerResult)
      modifies this`seenReviews, this`outbox
      ensures (State(), r) == PriorGate(config, host, old(State()), ev)
    {
      var changeId := ev.change.id;
      if changeId == JNull {
        var raised := SendNotifications(ev);
        return if raised.Some? then HandlerRaised(raised.value) else Sent;
      }
      if seenReviews != map[] {
        var key := HashKey(changeId);
        if key.Err? {
          return HandlerRaised(key.error);
        }
        if key.value in seenReviews {
          return SeenBefore;
        }
      }
      var raised := SendNotifications(ev);
      if raised.Some? {
        return HandlerRaised(raised.value);
      }
      var key := HashKey(changeId);
      if key.Err? {
        return HandlerRaised(key.error);
      }
      seenReviews := seenReviews[key.value := true];
      return Sent;
    }

    /** `process_comment_added` and `process_patchset_created` with their two decorators. */
    method ProcessReview(ev: Event) returns (r: HandlerResult)
      modifies this`seenReviews, this`outbox
      ensures (State(), r) == Handling(config, host, old(State()), ev)
    {
      var pass := FilterByEmail(ev);
      if pass.Err? {
        return HandlerRaised(pass.error);
      }
      if !pass.value {
        return EmailRejected;
      }
      r := FilterByPrior(ev);
    }

    /** `process_event` on the payload `details['event']`. */
    method ProcessEvent(payload: Json) returns (outcome: Outcome)
      requires Valid()
      modifies this`statistics, this`seenReviews, this`outbox
      ensures Valid()
      ensures (State(), outcome) == Dispatch(config, host, old(State()), payload)
    {
      DispatchKeepsTables(config, host, State(), payload);
      if !payload.JObj? {
        return Escaped(if payload.JArr? then TypeError else AttributeError);
      }
      var fields := payload.fields;
      if "type" !in fields {
        return NoType;
      }
      var eventType := fields["type"];
      var typeKey := HashKey(eventType);
      if typeKey.Err? {
        return Escaped(typeKey.error);
      }
      statistics := Bump(statistics, EventTypes, typeKey.value);
      var cls := EventClassFor(eventType);
      if cls.None? {
        return Discarded;
      }
      var parsed := FromData(cls.value, JObj(fields - {"type"}));
      if parsed.Err? {
        return Escaped(parsed.error);
      }
      outcome := RouteEvent(parsed.value);
    }

    /** The rest of `process_event` once the event is parsed: count, filter by project, handle. */
    method RouteEvent(ev: Event) returns (outcome: Outcome)
      requires Valid()
      modifies this`statistics, this`seenReviews, this`outbox
      ensures Valid()
      ensures (State(), outcome) == Route(config, host, old(State()), ev)
    {
      RouteKeepsTables(config, host, State(), ev);
      var project := ev.change.project;
      if project != JNull {
        var projectKey := HashKey(project);
        if projectKey.Err? {
          return Escaped(projectKey.error);
        }
        statistics := Bump(statistics, Projects, projectKey.value);
      }
      if ev.CommentAdded? {
        var who := ev.author.email;
        if Truthy(who) {
          var whoKey := HashKey(who);
          if whoKey.Err? {
            return Escaped(whoKey.error);
          }
          statistics := Bump(statistics, Reviewers, whoKey.value);
        }
      }
      if ev.PatchSetCreated? {
        var who := ev.uploader.email;
        if Truthy(who) {
          var whoKey := HashKey(who);
          if whoKey.Err? {
            return Escaped(whoKey.error);
          }
          statistics := Bump(statistics, Uploaders, whoKey.value);
        }
      }
      if project == JNull || (config.projects != [] && !(project.JStr? && project.s in config.projects)) {
        return ProjectFiltered;
      }
      var result := ProcessReview(ev);
      return Handled(result);
    }

    /** `loop_process_events`: drain the work queue until the sentinel, an escaping exception or shutdown. */
    method LoopProcessEvents() returns (exit: LoopExit)
      requires Valid()
      modifies this`statistics, this`seenReviews, this`outbox, this`workQueue, this`tasksDone
      ensures Valid()
      ensures (Consumer(State(), workQueue, tasksDone), exit)
           == Drain(config, host, Consumer(old(State()), old(workQueue), old(tasksDone)), dying)
    {
      while !dying
        invariant Valid()
        invariant Drain(config, host, Consumer(State(), workQueue, tasksDone), dying)
               == Drain(config, host, Consumer(old(State()), old(workQueue), old(tasksDone)), dying)
        decreases |workQueue|
      {
        if workQueue == [] {
          return Starved;
        }
        var details := workQueue[0];
        workQueue := workQueue[1..];
        if details.Tombstone? {
          tasksDone := tasksDone + 1;
          return Stopped;
        }
        var outcome := ProcessEvent(details.details);
        tasksDone := tasksDone + 1;
        if outcome.Escaped? {
          return Died(outcome.error);
        }
      }
      return Halted;
    }

    /** `gerrit_stats`: the requested tables that exist, each as a header and its rows, then a newline. */
    method Stats(args: string) returns (r: Result<seq<Piece>>)
      requires Valid()
      ensures var names := Selected(RequestedTables(args), statistics);
        && (r.Ok? <==> forall n :: n in names ==> Orderable(statistics[n].Keys))
        && (r.Err? ==> r.error == TypeError)
        && (r.Ok? ==> Report(r.value, names, statistics))
    {
      var justTables := DefaultTables;
      if args != [] {
        var pieces := Words(args);
        if pieces != [] {
          justTables := pieces;
        }
      }
      r := WriteTables(justTables, statistics);
    }
  }
}
