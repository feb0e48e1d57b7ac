/**
 * The OpenStack variant of the bot (plugins/osgerrit/osgerrit.py): it reads
 * raw `patchset-created` events, keeps those whose owner, author or
 * uploader passes the email allow-list, records each change id once, and
 * sends a "proposal" card per room. The SSH watcher that produces the
 * events is not part of this model; its events arrive as `Json` values.
 */
module OsGerrit {
  import opened Text
  import opened Values
  import EmailFilter

  /** The `email_suffixes` and `emails` settings. */
  datatype Config = Config(emailSuffixes: seq<string>, emails: seq<string>)

  /**
   * What the plugin takes from the chat framework: the rooms it is in, and
   * whether rendering the "proposal" template fails for given parameters.
   */
  datatype Host = Host(rooms: seq<string>, renderFails: map<string, Json> -> bool)

  /** One `send_card` call; `params` are the parameters the summary was rendered from. */
  datatype Card = Card(to: string, link: Json, body: Json, params: map<string, Json>)

  /** The state an event can change: the `seen_reviews` cache (id to `createdOn`) and the cards sent. */
  datatype Bot = Bot(seen: map<Key, int>, outbox: seq<Card>)

  /** How `process_patchset_created` ended. */
  datatype HandlerResult = Sent | EmailRejected | SeenBefore | Raised(error: Exc)

  /** How `process_event` ended; `Handled` includes a handler that raised, which is logged and swallowed. */
  datatype Outcome = NoType | NoHandler | Handled(result: HandlerResult) | Escaped(error: Exc)

  /** The patch-set entries whose emails and details the plugin reads. */
  const People: seq<string> := ["owner", "author", "uploader"]

  // ---------------------------------------------------------------------------
  // ok_by_email

  /**
   * The loop collecting `event['patchSet'][k]['email']` for the keys still
   * to visit, after `found`: absent entries and entries without `email`
   * are skipped, any other error propagates.
   */
  function Emails(ps: Json, keys: seq<string>, found: seq<Json>): Result<seq<Json>>
    decreases |keys|
  {
    if keys == [] then Ok(found)
    else
      var present :- Contains(ps, keys[0]);
      if !present then Emails(ps, keys[1..], found)
      else
        var entry :- Get(ps, keys[0]);
        match Get(entry, "email")
        case Ok(email) => Emails(ps, keys[1..], found + [email])
        case Err(e) => if e.KeyError? then Emails(ps, keys[1..], found) else Err(e)
  }

  /** The candidate emails of an event, in the order `ok_by_email` appends them. */
  function EmailCandidates(event: Json): Result<seq<Json>> {
    var ps :- Get(event, "patchSet");
    Emails(ps, People, [])
  }

  /** `ok_by_email(event)`. */
  function EmailOk(cfg: Config, event: Json): Result<bool> {
    var candidates :- EmailCandidates(event);
    EmailFilter.Decision(candidates, cfg.emailSuffixes, cfg.emails)
  }

  /** The email of patch-set entry `k`, when the entry is present and has one. */
  predicate EmailOf(f: map<string, Json>, k: string, x: Json) {
    k in f && f[k].JObj? && "email" in f[k].fields && f[k].fields["email"] == x
  }

  // ---------------------------------------------------------------------------
  // process_patchset_created

  /** `"+%s" % min(0, v)`: `min` keeps its first argument on a tie, so booleans give 0. */
  function InsertsLabel(v: Json): Result<string> {
    match v
    case JInt(n) => Ok("+" + Decimal(if n < 0 then n else 0))
    case JBool(_) => Ok("+0")
    case _ => Err(TypeError)
  }

  /**
   * `max(0, v)`, shown as "-0" when it equals 0 and as `str(...)` otherwise;
   * `max(0, True)` is `True`, which is not equal to 0 and shows as "True".
   */
  function DeletesLabel(v: Json): Result<string> {
    match v
    case JInt(n) =>
      var m := if n > 0 then n else 0;
      Ok(if m == 0 then "-0" else Decimal(m))
    case JBool(b) => Ok(if b then "True" else "-0")
    case _ => Err(TypeError)
  }

  /** `d.get(k, default)` on a dict. */
  function FieldOr(f: map<string, Json>, k: string, default: Json): Json {
    if k in f then f[k] else default
  }

  /** The lines of a commit message as the JSON list `commitMessageLines`. */
  function LineValues(lines: seq<string>): seq<Json> {
    seq(|lines|, i requires 0 <= i < |lines| => JStr(lines[i]))
  }

  /** `base` with the entries of `keys` present in the patch set copied in, in order. */
  function WithPeople(ps: map<string, Json>, keys: seq<string>, base: map<string, Json>): map<string, Json> {
    if keys == [] then base
    else
      var before := WithPeople(ps, keys[..|keys| - 1], base);
      var k := keys[|keys| - 1];
      if k in ps then before[k := ps[k]] else before
  }

  /**
   * `tpl_params`: creation time, the two labels, copies of the people
   * entries, and a copy of the change whose `commitMessageLines` are the
   * lines of its `commitMessage`.
   */
  function TemplateParams(ps: map<string, Json>, change: map<string, Json>, createdOn: int, inserts: string, deletes: string): (r: Result<map<string, Json>>)
    ensures r.Ok? <==> "commitMessage" in change && change["commitMessage"].JStr?
    ensures r.Err? ==> r.error == (if "commitMessage" in change then AttributeError else KeyError("commitMessage"))
  {
    var params := WithPeople(ps, People, map["created_on" := JInt(createdOn), "inserts" := JStr(inserts), "deletes" := JStr(deletes)]);
    var copy := change["commitMessageLines" := JArr([])];
    if "commitMessage" !in copy then Err(KeyError("commitMessage"))
    else if !copy["commitMessage"].JStr? then Err(AttributeError)
    else Ok(params["change" := JObj(copy["commitMessageLines" := JArr(LineValues(SplitLines(copy["commitMessage"].s)))])])
  }

  /** One card per room, with the commit message as body and the change URL as link. */
  function Cards(rooms: seq<string>, message: Json, link: Json, params: map<string, Json>): seq<Card> {
    seq(|rooms|, i requires 0 <= i < |rooms| => Card(rooms[i], link, message, params))
  }

  /**
   * Everything after the id is recorded: the labels, the parameters, the
   * rendering and the cards; the new outbox, or what was raised.
   */
  function Proposal(host: Host, outbox: seq<Card>, ps: map<string, Json>, change: map<string, Json>, createdOn: int): Result<seq<Card>> {
    var inserts :- InsertsLabel(FieldOr(ps, "sizeInsertions", JInt(0)));
    var deletes :- DeletesLabel(FieldOr(ps, "sizeDeletions", JInt(0)));
    var params :- TemplateParams(ps, change, createdOn, inserts, deletes);
    if host.renderFails(params) then Err(RenderError)
    else if host.rooms == [] then Ok(outbox)
    else if "url" !in change then Err(KeyError("url"))
    else Ok(outbox + Cards(host.rooms, change["commitMessage"], change["url"], params))
  }

  /** `event['change']` and `event['change']['id']`. */
  function ChangeOf(event: Json): Result<(map<string, Json>, Json)> {
    var change :- Get(event, "change");
    var id :- Get(change, "id");
    Ok((change.fields, id))
  }

  /** `event['patchSet']` and `datetime.fromtimestamp(event['patchSet']['createdOn'])`. */
  function CreatedOn(event: Json): Result<(map<string, Json>, int)> {
    var ps :- Get(event, "patchSet");
    var stamp :- Get(ps, "createdOn");
    var t :- Timestamp(stamp);
    Ok((ps.fields, t))
  }

  /**
   * `process_patchset_created`: the email check, the `seen_reviews` test
   * (skipped while the cache is empty, which is falsy), recording the id
   * with its creation time, then the proposal. The id stays recorded when
   * anything after it raises.
   */
  function PatchsetCreated(cfg: Config, host: Host, bot: Bot, event: Json): (Bot, HandlerResult) {
    match EmailOk(cfg, event)
    case Err(e) => (bot, Raised(e))
    case Ok(ok) =>
      if !ok then (bot, EmailRejected)
      else match ChangeOf(event)
      case Err(e) => (bot, Raised(e))
      case Ok((change, id)) =>
        if bot.seen != map[] && HashKey(id).Err? then (bot, Raised(TypeError))
        else if bot.seen != map[] && HashKey(id).value in bot.seen then (bot, SeenBefore)
        else match CreatedOn(event)
        case Err(e) => (bot, Raised(e))
        case Ok((ps, createdOn)) =>
          match HashKey(id)
          case Err(e) => (bot, Raised(e))
          case Ok(k) =>
            var seen := bot.seen[k := createdOn];
            match Proposal(host, bot.outbox, ps, change, createdOn)
            case Err(e) => (Bot(seen, bot.outbox), Raised(e))
            case Ok(outbox) => (Bot(seen, outbox), Sent)
  }

  // ---------------------------------------------------------------------------
  // process_event

  /** The method `process_event` looks up for an event type. */
  function HandlerName(t: string): string {
    "process_" + ReplaceChar(t, '-', '_')
  }

  /**
   * `process_event(event_type, details)`: the type comes from
   * `details['event']['type']` (a `KeyError` or `TypeError` there means no
   * type); `process_patchset_created` is the one handler; the name
   * `process_event` finds the dispatcher itself, whose call with one
   * argument raises `TypeError`; handler exceptions are logged and swallowed.
   */
  function Dispatch(cfg: Config, host: Host, bot: Bot, details: Json): (Bot, Outcome) {
    match Get(details, "event")
    case Err(_) => (bot, NoType)
    case Ok(event) =>
      match Get(event, "type")
      case Err(_) => (bot, NoType)
      case Ok(t) =>
        if !Truthy(t) then (bot, NoType)
        else if !t.JStr? then (bot, Escaped(AttributeError))
        else if HandlerName(t.s) == "process_patchset_created" then
          var (after, result) := PatchsetCreated(cfg, host, bot, event);
          (after, Handled(result))
        else if HandlerName(t.s) == "process_event" then (bot, Handled(Raised(TypeError)))
        else (bot, NoHandler)
  }

  // ---------------------------------------------------------------------------
  // The plugin object

  /** The loop copying the people entries present in the patch set into `tpl_params`. */
  method CopyPeople(ps: map<string, Json>, base: map<string, Json>) returns (params: map<string, Json>)
    ensures params == WithPeople(ps, People, base)
  {
    params := base;
    var i := 0;
    while i < |People|
      invariant 0 <= i <= |People|
      invariant params == WithPeople(ps, People[..i], base)
    {
      assert People[..i + 1][..i] == People[..i];
      if People[i] in ps {
        params := params[People[i] := ps[People[i]]];
      }
      i := i + 1;
    }
    assert People[..i] == People;
  }

  /** The loop appending each line of the commit message to `commitMessageLines`. */
  method CommitLines(message: string) returns (lines: seq<Json>)
    ensures lines == LineValues(SplitLines(message))
  {
    var split := SplitLines(message);
    lines := [];
    var j := 0;
    while j < |split|
      invariant 0 <= j <= |split|
      invariant |lines| == j
      invariant forall k :: 0 <= k < j ==> lines[k] == JStr(split[k])
    {
      lines := lines + [JStr(split[j])];
      j := j + 1;
    }
  }

  class OsGerritBotPlugin {
    const config: Config
    const host: Host
    var seenReviews: map<Key, int>
    var outbox: seq<Card>

    function State(): Bot
      reads this
    {
      Bot(seenReviews, outbox)
    }

    /** `__init__` followed by `activate`: an empty `seen_reviews` cache and nothing sent. */
    constructor (config: Config, host: Host)
      ensures this.config == config && this.host == host
      ensures seenReviews == map[] && outbox == []
    {
      this.config := config;
      this.host := host;
      seenReviews := map[];
      outbox := [];
    }

    /** `ok_by_email`: collect the patch-set emails, then run the suffix and allow-list loops. */
    method OkByEmail(event: Json) returns (r: Result<bool>)
      ensures r == EmailOk(config, event)
    {
      var ps :- Get(event, "patchSet");
      var incoming: seq<Json> := [];
      var i := 0;
      while i < |People|
        invariant 0 <= i <= |People|
        invariant Emails(ps, People, []) == Emails(ps, People[i..], incoming)
      {
        assert People[i..][1..] == People[i + 1..];
        var present :- Contains(ps, People[i]);
        if present {
          var entry :- Get(ps, People[i]);
          var email := Get(entry, "email");
          if email.Ok? {
            incoming := incoming + [email.value];
          } else if !email.error.KeyError? {
            return Err(email.error);
          }
        }
        i := i + 1;
      }
      r := EmailFilter.Scan(incoming, config.emailSuffixes, config.emails);
    }

    /**
     * The part of `process_patchset_created` after the id is recorded:
     * labels, `tpl_params`, rendering, and one card per room.
     */
    method Propose(ps: map<string, Json>, change: map<string, Json>, createdOn: int) returns (raised: Option<Exc>)
      modifies this`outbox
      ensures match Proposal(host, old(outbox), ps, change, createdOn)
              case Err(e) => raised == Some(e) && outbox == old(outbox)
              case Ok(sent) => raised == None && outbox == sent
    {
      var inserts := InsertsLabel(FieldOr(ps, "sizeInsertions", JInt(0)));
      if inserts.Err? {
        return Some(inserts.error);
      }
      var deletes := DeletesLabel(FieldOr(ps, "sizeDeletions", JInt(0)));
      if deletes.Err? {
        return Some(deletes.error);
      }
      var params := map["created_on" := JInt(createdOn), "inserts" := JStr(inserts.value), "deletes" := JStr(deletes.value)];
      params := CopyPeople(ps, params);
      var copy := change["commitMessageLines" := JArr([])];
      if "commitMessage" !in copy {
        return Some(KeyError("commitMessage"));
      }
      var message := copy["commitMessage"];
      if !message.JStr? {
        return Some(AttributeError);
      }
      var lines := CommitLines(message.s);
      copy := copy["commitMessageLines" := JArr(lines)];
      params := params["change" := JObj(copy)];
      if host.renderFails(params) {
        return Some(RenderError);
      }
      if host.rooms != [] && "url" !in copy {
        return Some(KeyError("url"));
      }
      SendCards(params, copy);
      return None;
    }

    /** The `send_card` loop: one card per room, linking the change and quoting its commit message. */
    method SendCards(params: map<string, Json>, change: map<string, Json>)
      requires host.rooms != [] ==> "url" in change && "commitMessage" in change
      modifies this`outbox
      ensures host.rooms == [] ==> outbox == old(outbox)
      ensures host.rooms != [] ==> outbox == old(outbox) + Cards(host.rooms, change["commitMessage"], change["url"], params)
    {
      var rooms := host.rooms;
      var r := 0;
      while r < |rooms|
        invariant 0 <= r <= |rooms|
        invariant outbox == old(outbox) + seq(r, k requires 0 <= k < r => Card(rooms[k], change["url"], change["commitMessage"], params))
      {
        outbox := outbox + [Card(rooms[r], change["url"], change["commitMessage"], params)];
        r := r + 1;
      }
    }

    /** `process_patchset_created`. */
    method ProcessPatchsetCreated(event: Json) returns (r: HandlerResult)
      modifies this`seenReviews, this`outbox
      ensures (State(), r) == PatchsetCreated(config, host, old(State()), event)
    {
      var ok := OkByEmail(event);
      if ok.Err? {
        return Raised(ok.error);
      }
      if !ok.value {
        return EmailRejected;
      }
      var change := Get(event, "change");
      if change.Err? {
        return Raised(change.error);
      }
      var changeId := Get(change.value, "id");
      if changeId.Err? {
        return Raised(changeId.error);
      }
      if seenReviews != map[] {
        var key := HashKey(changeId.value);
        if key.Err? {
          return Raised(key.error);
        }
        if key.value in seenReviews {
          return SeenBefore;
        }
      }
      var ps := Get(event, "patchSet");
      assert ps.Ok?;
      var stamp := Get(ps.value, "createdOn");
      if stamp.Err? {
        return Raised(stamp.error);
      }
      var createdOn := Timestamp(stamp.value);
      if createdOn.Err? {
        return Raised(createdOn.error);
      }
      var key := HashKey(changeId.value);
      if key.Err? {
        return Raised(key.error);
      }
      seenReviews := seenReviews[key.value := createdOn.value];
      var raised := Propose(ps.value.fields, change.value.fields, createdOn.value);
      return if raised.Some? then Raised(raised.value) else Sent;
    }

    /** `process_event(event_type, details)`; the `event_type` argument is overwritten and never read. */
    method ProcessEvent(eventType: string, details: Json) returns (outcome: Outcome)
      modifies this`seenReviews, this`outbox
      ensures (State(), outcome) == Dispatch(config, host, old(State()), details)
    {
      var event := Get(details, "event");
      if event.Err? {
        return NoType;
      }
      var typeValue := Get(event.value, "type");
      if typeValue.Err? || !Truthy(typeValue.value) {
        return NoType;
      }
      if !typeValue.value.JStr? {
        return Escaped(AttributeError);
      }
      var name := HandlerName(typeValue.value.s);
      if name == "process_patchset_created" {
        var result := ProcessPatchsetCreated(event.value);
        return Handled(result);
      }
      if name == "process_event" {
        return Handled(Raised(TypeError));
      }
      return NoHandler;
    }
  }

  // ---------------------------------------------------------------------------
  // Properties

  /** The candidates of a patch set whose entries are dicts are exactly their emails. */
  lemma {:induction false} EmailsMeaning(f: map<string, Json>, keys: seq<string>, found: seq<Json>)
    requires forall k :: k in keys && k in f ==> f[k].JObj?
    ensures Emails(JObj(f), keys, found).Ok?
    ensures forall x :: x in Emails(JObj(f), keys, found).value <==>
      x in found || exists k :: k in keys && EmailOf(f, k, x)
    decreases |keys|
  {
    if keys != [] {
      var k := keys[0];
      assert keys == [k] + keys[1..];
      if k in f && "email" in f[k].fields {
        EmailsMeaning(f, keys[1..], found + [f[k].fields["email"]]);
      } else {
        EmailsMeaning(f, keys[1..], found);
      }
    }
  }

  /**
   * `ok_by_email` on a patch set whose entries carry string emails: pass
   * iff no suffix is configured, "*" is one, some email ends with some
   * suffix, or some email is allow-listed.
   */
  lemma {:induction false} EmailOkMeaning(cfg: Config, f: map<string, Json>)
    requires forall k :: k in People && k in f ==> f[k].JObj?
    requires forall k, x :: k in People && EmailOf(f, k, x) ==> x.JStr?
    ensures EmailOk(cfg, JObj(map["patchSet" := JObj(f)])) == Ok(
      || cfg.emailSuffixes == []
      || "*" in cfg.emailSuffixes
      || (exists k, s, x :: k in People && EmailOf(f, k, JStr(s)) && x in cfg.emailSuffixes && EndsWith(s, x))
      || (exists k, s :: k in People && EmailOf(f, k, JStr(s)) && s in cfg.emails))
  {
    var event := JObj(map["patchSet" := JObj(f)]);
    EmailsMeaning(f, People, []);
    var candidates := Emails(JObj(f), People, []).value;
    assert EmailCandidates(event) == Ok(candidates);
    assert EmailFilter.AllText(candidates) by {
      forall i | 0 <= i < |candidates| ensures candidates[i].JStr? {
        assert candidates[i] in candidates;
      }
    }
    EmailFilter.DecisionMeaning(candidates, cfg.emailSuffixes, cfg.emails);
    SuffixedEmails(f, candidates, cfg.emailSuffixes);
    ListedEmails(f, candidates, cfg.emails);
  }

  /** Some candidate ends with a suffix iff some person's email does. */
  lemma SuffixedEmails(f: map<string, Json>, candidates: seq<Json>, suffixes: seq<string>)
    requires forall x :: x in candidates <==> exists k :: k in People && EmailOf(f, k, x)
    ensures (exists c, x :: c in candidates && c.JStr? && x in suffixes && EndsWith(c.s, x))
        <==> (exists k, s, x :: k in People && EmailOf(f, k, JStr(s)) && x in suffixes && EndsWith(s, x))
  {
    if exists c, x :: c in candidates && c.JStr? && x in suffixes && EndsWith(c.s, x) {
      var c, x :| c in candidates && c.JStr? && x in suffixes && EndsWith(c.s, x);
      var k :| k in People && EmailOf(f, k, c);
      assert EmailOf(f, k, JStr(c.s));
    }
    if exists k, s, x :: k in People && EmailOf(f, k, JStr(s)) && x in suffixes && EndsWith(s, x) {
      var k, s, x :| k in People && EmailOf(f, k, JStr(s)) && x in suffixes && EndsWith(s, x);
      assert JStr(s) in candidates;
    }
  }

  /** Some candidate is allow-listed iff some person's email is. */
  lemma ListedEmails(f: map<string, Json>, candidates: seq<Json>, emails: seq<string>)
    requires forall x :: x in candidates <==> exists k :: k in People && EmailOf(f, k, x)
    ensures (exists c :: c in candidates && c.JStr? && c.s in emails)
        <==> (exists k, s :: k in People && EmailOf(f, k, JStr(s)) && s in emails)
  {
    if exists c :: c in candidates && c.JStr? && c.s in emails {
      var c :| c in candidates && c.JStr? && c.s in emails;
      var k :| k in People && EmailOf(f, k, c);
      assert EmailOf(f, k, JStr(c.s));
    }
    if exists k, s :: k in People && EmailOf(f, k, JStr(s)) && s in emails {
      var k, s :| k in People && EmailOf(f, k, JStr(s)) && s in emails;
      assert JStr(s) in candidates;
    }
  }

  /** The parameters hold the people entries present in the patch set, and otherwise what they held. */
  lemma {:induction false} WithPeopleMeaning(ps: map<string, Json>, keys: seq<string>, base: map<string, Json>)
    ensures forall k :: k in WithPeople(ps, keys, base) <==> k in base || (k in keys && k in ps)
    ensures forall k :: k in keys && k in ps ==> WithPeople(ps, keys, base)[k] == ps[k]
    ensures forall k :: k !in keys && k in base ==> WithPeople(ps, keys, base)[k] == base[k]
  {
    if keys != [] {
      var init := keys[..|keys| - 1];
      WithPeopleMeaning(ps, init, base);
      assert keys == init + [keys[|keys| - 1]];
    }
  }

  /** A patch-set entry whose `email` is null makes the email check raise once a plain suffix is configured. */
  lemma NullEmailRaises(cfg: Config, f: map<string, Json>, k: string)
    requires forall p :: p in People && p in f ==> f[p].JObj?
    requires k in People && EmailOf(f, k, JNull)
    requires exists x :: x in cfg.emailSuffixes && x != "*"
    ensures EmailOk(cfg, JObj(map["patchSet" := JObj(f)])) == Err(AttributeError)
  {
    EmailsMeaning(f, People, []);
    var candidates := Emails(JObj(f), People, []).value;
    assert JNull in candidates;
    var i :| 0 <= i < |candidates| && candidates[i] == JNull;
    EmailFilter.NonTextRaises(candidates, cfg.emailSuffixes, cfg.emails, i);
  }

  /** Every non-negative insert count shows as "+0"; the digits after "+" read back as `min(0, n)`. */
  lemma {:induction false} InsertsLabelValue(n: int)
    ensures InsertsLabel(JInt(n)).Ok?
    ensures n >= 0 ==> InsertsLabel(JInt(n)).value == "+0"
    ensures InsertsLabel(JInt(n)).value[0] == '+'
    ensures PyInt(JStr(InsertsLabel(JInt(n)).value[1..])) == Ok(if n < 0 then n else 0)
  {
    var m := if n < 0 then n else 0;
    var shown := InsertsLabel(JInt(n)).value;
    assert shown[1..] == Decimal(m);
    ParseIntOfDecimal(m);
  }

  /** The deletes label reads back as `max(0, n)` and carries a minus sign only as "-0". */
  lemma {:induction false} DeletesLabelValue(n: int)
    ensures DeletesLabel(JInt(n)).Ok?
    ensures n <= 0 ==> DeletesLabel(JInt(n)).value == "-0"
    ensures n > 0 ==> DeletesLabel(JInt(n)).value[0] != '-'
    ensures PyInt(JStr(DeletesLabel(JInt(n)).value)) == Ok(if n > 0 then n else 0)
  {
    if n > 0 {
      DigitsValueOfDigits(n);
      ParseIntOfDecimal(n);
      assert IsDigit(Digits(n)[0]);
    } else {
      MinusZero();
    }
  }

  /**
   * For any string commit message, the copied change gains
   * `commitMessageLines`, the message's `splitlines()`, and keeps every
   * other field.
   */
  lemma CommitMessageSplit(ps: map<string, Json>, change: map<string, Json>, createdOn: int, inserts: string, deletes: string, message: string)
    requires "commitMessage" in change && change["commitMessage"] == JStr(message)
    ensures TemplateParams(ps, change, createdOn, inserts, deletes).Ok?
    ensures "change" in TemplateParams(ps, change, createdOn, inserts, deletes).value
    ensures TemplateParams(ps, change, createdOn, inserts, deletes).value["change"] ==
      JObj(change["commitMessageLines" := JArr(LineValues(SplitLines(message)))])
  {
  }

  /**
   * `commitMessageLines` holds exactly the lines of `commitMessage`, in
   * order: for a message made of line-break-free lines, each ended by a
   * newline, then a last line that may lack one, the parameters list those
   * lines (and no empty line for a message that ends in a newline).
   */
  lemma {:induction false} CommitMessageLines(ps: map<string, Json>, change: map<string, Json>, createdOn: int, inserts: string, deletes: string, lines: seq<string>, last: string)
    requires forall i :: 0 <= i < |lines| ==> NoLineBreak(lines[i])
    requires NoLineBreak(last)
    requires "commitMessage" in change && change["commitMessage"] == JStr(Terminated(lines) + last)
    ensures TemplateParams(ps, change, createdOn, inserts, deletes).Ok?
    ensures "change" in TemplateParams(ps, change, createdOn, inserts, deletes).value
    ensures TemplateParams(ps, change, createdOn, inserts, deletes).value["change"] ==
      JObj(change["commitMessageLines" := JArr(LineValues(lines + (if last == [] then [] else [last])))])
  {
    CommitMessageSplit(ps, change, createdOn, inserts, deletes, Terminated(lines) + last);
    SplitLinesOfText(lines, last);
  }

  /** A failed email check leaves the cache and the outbox as they were. */
  lemma EmailRejectedNoOp(cfg: Config, host: Host, bot: Bot, event: Json)
    requires EmailOk(cfg, event) == Ok(false)
    ensures PatchsetCreated(cfg, host, bot, event) == (bot, EmailRejected)
  {
  }

  /**
   * Once the email check passes and the id is new, the id is recorded with
   * its creation time whatever happens next; the event is sent iff the
   * proposal succeeds.
   */
  lemma RecordedBeforeSending(cfg: Config, host: Host, bot: Bot, event: Json, change: map<string, Json>, id: Json, ps: map<string, Json>, createdOn: int)
    requires EmailOk(cfg, event) == Ok(true)
    requires ChangeOf(event) == Ok((change, id)) && HashKey(id).Ok?
    requires HashKey(id).value !in bot.seen
    requires CreatedOn(event) == Ok((ps, createdOn))
    ensures PatchsetCreated(cfg, host, bot, event).0.seen == bot.seen[HashKey(id).value := createdOn]
    ensures PatchsetCreated(cfg, host, bot, event).1 == Sent <==> Proposal(host, bot.outbox, ps, change, createdOn).Ok?
  {
  }

  /** An event whose change id is already cached is suppressed with no change. */
  lemma SeenSuppressed(cfg: Config, host: Host, bot: Bot, event: Json, change: map<string, Json>, id: Json)
    requires EmailOk(cfg, event) == Ok(true)
    requires ChangeOf(event) == Ok((change, id)) && HashKey(id).Ok?
    requires HashKey(id).value in bot.seen
    ensures PatchsetCreated(cfg, host, bot, event) == (bot, SeenBefore)
  {
  }

  /** The same event delivered twice is acted on once: the second delivery finds its id recorded. */
  lemma {:induction false} SecondDeliverySuppressed(cfg: Config, host: Host, bot: Bot, event: Json)
    requires PatchsetCreated(cfg, host, bot, event).1 == Sent
    ensures PatchsetCreated(cfg, host, PatchsetCreated(cfg, host, bot, event).0, event) ==
      (PatchsetCreated(cfg, host, bot, event).0, SeenBefore)
  {
    var (change, id) := ChangeOf(event).value;
    var (ps, createdOn) := CreatedOn(event).value;
    var k := HashKey(id).value;
    var after := PatchsetCreated(cfg, host, bot, event).0;
    assert after.seen == bot.seen[k := createdOn];
    assert k in after.seen;
    SeenSuppressed(cfg, host, after, event, change, id);
  }

  /** The handler name of `t` is `process_` followed by `t` with each `-` read as `_`. */
  lemma HandlerNameIs(t: string, name: string)
    ensures HandlerName(t) == "process_" + name <==> ReplaceChar(t, '-', '_') == name
  {
    var r := ReplaceChar(t, '-', '_');
    if HandlerName(t) == "process_" + name {
      assert r == HandlerName(t)[8..];
      assert name == ("process_" + name)[8..];
    }
  }

  /** The strings that read as `patchset_created` once each `-` is read as `_`. */
  lemma {:induction false} ReplacedPatchsetCreated(t: string)
    ensures ReplaceChar(t, '-', '_') == "patchset_created" <==> t == "patchset-created" || t == "patchset_created"
  {
    var target := "patchset_created";
    var r := ReplaceChar(t, '-', '_');
    if r == target {
      forall i | 0 <= i < |t| && i != 8 ensures t[i] == target[i] {
        assert r[i] == target[i];
      }
      if t[8] == '-' {
        assert t == "patchset-created";
      } else {
        assert t == target;
      }
    }
  }

  /** The types routed to `process_patchset_created`: the `-` in the name may also be written `_`. */
  lemma {:induction false} PatchsetCreatedTypes(t: string)
    ensures HandlerName(t) == "process_patchset_created" <==> t == "patchset-created" || t == "patchset_created"
  {
    HandlerNameIs(t, "patchset_created");
    ReplacedPatchsetCreated(t);
  }

  /** Only the type "event" names the dispatcher itself. */
  lemma {:induction false} DispatcherType(t: string)
    ensures HandlerName(t) == "process_event" <==> t == "event"
  {
    var r := ReplaceChar(t, '-', '_');
    if HandlerName(t) == "process_event" {
      assert r == HandlerName(t)[8..];
      assert r == "event";
      forall i | 0 <= i < |t| ensures t[i] == "event"[i] {
        assert r[i] == "event"[i];
      }
    }
  }

  /** No event type, or an empty one, makes `process_event` a no-op. */
  lemma NoTypeNoOp(cfg: Config, host: Host, bot: Bot, details: Json)
    requires Get(details, "event").Err? || Get(Get(details, "event").value, "type").Err?
             || !Truthy(Get(Get(details, "event").value, "type").value)
    ensures Dispatch(cfg, host, bot, details) == (bot, NoType)
  {
  }

  /**
   * A string type routes on its name: a new patch set runs the handler,
   * "event" finds the dispatcher and raises inside the `try`, and every
   * other type is ignored. Nothing escapes for a string type.
   */
  lemma {:induction false} DispatchRoutes(cfg: Config, host: Host, bot: Bot, event: Json, t: string)
    requires t != ""
    ensures var d := Dispatch(cfg, host, bot, JObj(map["event" := event]));
      && (Get(event, "type") == Ok(JStr(t)) ==> !d.1.Escaped?)
      && (Get(event, "type") == Ok(JStr(t)) && (t == "patchset-created" || t == "patchset_created") ==>
            d == (PatchsetCreated(cfg, host, bot, event).0, Handled(PatchsetCreated(cfg, host, bot, event).1)))
      && (Get(event, "type") == Ok(JStr(t)) && t == "event" ==> d == (bot, Handled(Raised(TypeError))))
      && (Get(event, "type") == Ok(JStr(t)) && t != "patchset-created" && t != "patchset_created" && t != "event" ==>
            d == (bot, NoHandler))
  {
    PatchsetCreatedTypes(t);
    DispatcherType(t);
  }
}
