/** The incremental-sync ingestion of src/main.rs: the store record loaded at
    start-up, the request parameters of each page call, the classification of
    each reply, the merge of a page into the store, the offset and watermark
    bookkeeping, the end-of-list transition, the call bound and the
    checkpoints. Network, file and clock calls are replaced by inputs (the
    replies, the file as read) and outputs (the parameters sent, the snapshots
    saved). */
module Sync {
  import opened Values

  const DATA_ETAT_INITIALISATION: string := "initialisation"
  const DATA_ETAT_MISE_A_JOUR: string := "miseAJour"

  /** Number of items asked for in each page request. */
  const PAGE_COUNT: nat := 30
  /** A checkpoint is written whenever the page count is a multiple of this. */
  const SAVE_EVERY: nat := 10

  /** The store record `data`. The scalar fields are optional because a store
      read from disk may lack them or hold a value of another JSON type; the
      loop itself only ever writes present values. */
  datatype Store = Store(
    etat: Option<string>,
    offset: Option<nat>,
    date: Option<nat>,
    liste: map<string, Json>)

  /** The record created when no store file exists yet. */
  function EmptyStore(): (s: Store)
    ensures s.etat == Some(DATA_ETAT_INITIALISATION) && s.liste == map[]
    ensures s.offset == Some(0) && s.date == Some(0)
  {
    Store(Some(DATA_ETAT_INITIALISATION), Some(0), Some(0), map[])
  }

  /** The credentials taken from the configuration. */
  datatype Config = Config(consumerKey: string, accessToken: string)

  /** The body of one page request. */
  /** An unsigned 8-bit field of the request. */
  type U8 = n: nat | n < 256

  datatype Parameters = Parameters(
    consumerKey: string,
    accessToken: string,
    detailType: string,
    count: nat,
    offset: nat,
    total: U8,
    sort: string,
    since: Option<nat>)

  /** The request for the page at `offset`: the watermark filter is sent
      only once the initial download is over. */
  function BuildParameters(cfg: Config, initialisation: bool, offset: nat, since: nat): (p: Parameters)
    ensures p.since.None? <==> initialisation
    ensures !initialisation ==> p.since == Some(since)
    ensures p.offset == offset
    ensures p.count == PAGE_COUNT && p.total == 1
    ensures p.detailType == "simple" && p.sort == "oldest"
    ensures p.consumerKey == cfg.consumerKey && p.accessToken == cfg.accessToken
  {
    Parameters(cfg.consumerKey, cfg.accessToken, "simple", PAGE_COUNT, offset, 1, "oldest",
               if initialisation then None else Some(since))
  }

  /** The JSON object the parameters serialise to; an absent `since` is
      skipped rather than written as null. */
  function RequestBody(p: Parameters): (body: map<string, Json>)
    ensures "since" in body <==> p.since.Some?
    ensures p.since.Some? ==> body["since"] == Num(p.since.value)
    ensures "offset" in body && body["offset"] == Num(p.offset)
  {
    var fields := map[
      "consumer_key" := Str(p.consumerKey),
      "access_token" := Str(p.accessToken),
      "detailType" := Str(p.detailType),
      "count" := Num(p.count),
      "offset" := Num(p.offset),
      "total" := Num(p.total),
      "sort" := Str(p.sort)];
    if p.since.Some? then fields["since" := Num(p.since.value)] else fields
  }

  /** Reading parameters back from such an object; a missing or null
      `since` reads as none, any other missing or mistyped field fails, and
      so does a `total` outside the 8-bit range. */
  function ParseParameters(body: map<string, Json>): (r: Option<Parameters>)
    ensures || "consumer_key" !in body || "access_token" !in body || "detailType" !in body
            || "count" !in body || "offset" !in body || "total" !in body || "sort" !in body
            ==> r.None?
    ensures r.Some? ==> "offset" in body && body["offset"] == Num(r.value.offset)
    ensures "total" in body && body["total"].Num? && !(0 <= body["total"].n < 256) ==> r.None?
    ensures r.Some? ==> body["total"] == Num(r.value.total)
    ensures r.Some? ==> ("since" in body && !body["since"].Null? <==> r.value.since.Some?)
    ensures r.Some? && r.value.since.Some? ==> body["since"] == Num(r.value.since.value)
  {
    if && "consumer_key" in body && body["consumer_key"].Str?
       && "access_token" in body && body["access_token"].Str?
       && "detailType" in body && body["detailType"].Str?
       && "count" in body && body["count"].Num? && body["count"].n >= 0
       && "offset" in body && body["offset"].Num? && body["offset"].n >= 0
       && "total" in body && body["total"].Num? && 0 <= body["total"].n < 256
       && "sort" in body && body["sort"].Str?
       && ("since" in body ==> body["since"].Null? || (body["since"].Num? && body["since"].n >= 0))
    then
      Some(Parameters(
        body["consumer_key"].s, body["access_token"].s, body["detailType"].s,
        body["count"].n, body["offset"].n, body["total"].n, body["sort"].s,
        if "since" in body && body["since"].Num? then Some(body["since"].n) else None))
    else None
  }

  /** The loop's starting point: the store, the page offset, the watermark
      filter, and whether this run is the initial download. */
  datatype Start = Start(data: Store, offset: nat, since: nat, initialisation: bool)

  /** Unwrapping the stored `date` fails when the store is past its initial
      download and holds no usable date. */
  datatype LoadError = DateNotReadable

  /** The initial state from the store file as read (None when absent). */
  function Load(file: Option<Store>): (r: Result<Start, LoadError>)
    ensures file.None? ==> r == Ok(Start(EmptyStore(), 0, 0, true))
    ensures file.Some? ==>
      (r.Ok? <==> file.value.etat == Some(DATA_ETAT_INITIALISATION) || file.value.date.Some?)
    ensures file.Some? && r.Ok? ==>
      && r.value.data == file.value
      && r.value.offset == file.value.offset.GetOr(0)
      && (r.value.initialisation <==> file.value.etat == Some(DATA_ETAT_INITIALISATION))
      && r.value.since == (if r.value.initialisation then 0 else file.value.date.value)
  {
    match file
    case None => Ok(Start(EmptyStore(), 0, 0, true))
    case Some(stored) =>
      var initialisation := stored.etat == Some(DATA_ETAT_INITIALISATION);
      if initialisation then Ok(Start(stored, stored.offset.GetOr(0), 0, true))
      else if stored.date.None? then Err(DateNotReadable)
      else Ok(Start(stored, stored.offset.GetOr(0), stored.date.value, false))
  }

  /** A decoded response body, whose `maxActions`, `cachetype`, `since` and
      `list` keys are all present: `list` when it is a JSON object (None
      when it is of another type), and `since` when it is an integer that fits
      in 64 signed bits (None when it is of another type or out of that
      range). */
  datatype Page = Page(list: Option<map<string, Json>>, since: Option<int>)

  /** What one page call produced: no response at all, or a status with the
      body if it could be read. */
  datatype Reply = TransportError | Response(status: nat, body: Option<Page>)

  /** Why the loop stopped. `Pending` is the model's own: the replies ran out
      while the loop was still going, as when the process is killed while
      waiting; the source loop never leaves that way. */
  datatype Exit =
    | RequestFailed
    | NotFound
    | BadRequest
    | UnexpectedStatus(status: nat)
    | BodyUnreadable
    | EndOfList
    | CallLimit
    | Pending

  /** What stays fixed during the loop. */
  datatype Ctx = Ctx(cfg: Config, initialisation: bool, since: nat, nbAppelMax: nat)

  /** The loop variables, with the store record. */
  datatype Cursor = Cursor(data: Store, offset: nat, dernierSince: nat, count: nat)

  /** One iteration either continues (and says whether it checkpoints) or
      leaves the loop. */
  datatype Step = Next(cursor: Cursor, save: bool) | Stop(cursor: Cursor, exit: Exit)

  /** The outcome of the loop: the last state, why it stopped, how many
      replies it consumed, the snapshots saved and the requests sent. */
  datatype Final = Final(last: Cursor, exit: Exit, consumed: nat, saves: seq<Store>, sent: seq<Parameters>)

  /** Folding a page into the item map: the page's entries win. */
  function Merged(liste: map<string, Json>, items: map<string, Json>): (r: map<string, Json>)
    ensures forall k {:trigger k in r} :: k in r <==> k in liste || k in items
    ensures forall k {:trigger r[k]} :: k in items ==> r[k] == items[k]
    ensures forall k {:trigger r[k]} :: k in liste && k !in items ==> r[k] == liste[k]
  {
    liste + items
  }

  /** The merge loop: each entry of the page is written into the item map. */
  method MergePage(liste: map<string, Json>, items: map<string, Json>) returns (r: map<string, Json>)
    ensures r == Merged(liste, items)
  {
    r := liste;
    var todo := items.Keys;
    while todo != {}
      invariant todo <= items.Keys
      invariant r.Keys == liste.Keys + (items.Keys - todo)
      invariant forall k :: k in items && k !in todo ==> r[k] == items[k]
      invariant forall k :: k in liste && (k !in items || k in todo) ==> r[k] == liste[k]
      decreases todo
    {
      var k :| k in todo;
      r := r[k := items[k]];
      todo := todo - {k};
    }
    assert r == Merged(liste, items);
  }

  /** The store at end of list: the last positive server watermark becomes
      the stored date, and the initial download is marked finished. */
  function EndOfListStore(initialisation: bool, c: Cursor): (s: Store)
    ensures s.liste == c.data.liste && s.offset == c.data.offset
    ensures s.date == if c.dernierSince > 0 then Some(c.dernierSince) else c.data.date
    ensures s.etat == if initialisation then Some(DATA_ETAT_MISE_A_JOUR) else c.data.etat
  {
    var d := if c.dernierSince > 0 then c.data.(date := Some(c.dernierSince)) else c.data;
    if initialisation then d.(etat := Some(DATA_ETAT_MISE_A_JOUR)) else d
  }

  /** What a reply does to the loop state before the page is counted: a
      failure or a missing list leaves the loop, a list is merged. */
  datatype Received = Listed(cursor: Cursor) | Stopped(cursor: Cursor, exit: Exit)

  /** The state after a page whose `list` is an object: the offset moves by
      the page size, the entries are merged, and a positive server `since`
      becomes the candidate watermark. */
  function WithItems(c: Cursor, items: map<string, Json>, since: Option<int>): Cursor
  {
    var offset := c.offset + |items|;
    var date := since.GetOr(-1);
    var dernier: nat := if date > 0 then date else c.dernierSince;
    Cursor(c.data.(liste := Merged(c.data.liste, items), offset := Some(offset)), offset, dernier, c.count)
  }

  /** The classification of one reply. */
  function Receive(initialisation: bool, c: Cursor, r: Reply): Received
  {
    match r
    case TransportError => Stopped(c, RequestFailed)
    case Response(status, body) =>
      if status == 200 then
        match body
        case None => Stopped(c, BodyUnreadable)
        case Some(page) =>
          match page.list
          case Some(items) => Listed(WithItems(c, items, page.since))
          case None => Stopped(c.(data := EndOfListStore(initialisation, c)), EndOfList)
      else if status == 404 then Stopped(c, NotFound)
      else if status == 400 then Stopped(c, BadRequest)
      else Stopped(c, UnexpectedStatus(status))
  }

  /** Counting a processed page: the call bound may end the loop, otherwise
      every SAVE_EVERY-th page is checkpointed. */
  function Counted(nbAppelMax: nat, c: Cursor): (s: Step)
    ensures s.cursor == c.(count := c.count + 1)
    ensures s.Stop? <==> nbAppelMax > 0 && c.count + 1 >= nbAppelMax
    ensures s.Stop? ==> s.exit == CallLimit
    ensures s.Next? ==> (s.save <==> (c.count + 1) % SAVE_EVERY == 0)
  {
    var next := c.(count := c.count + 1);
    if nbAppelMax > 0 && next.count >= nbAppelMax then Stop(next, CallLimit)
    else Next(next, next.count % SAVE_EVERY == 0)
  }

  /** One iteration of the loop on one reply. */
  function StepOn(ctx: Ctx, c: Cursor, r: Reply): Step
  {
    match Receive(ctx.initialisation, c, r)
    case Stopped(c', e) => Stop(c', e)
    case Listed(c') => Counted(ctx.nbAppelMax, c')
  }

  /** The whole loop over a sequence of replies, followed by the final save
      on every exit the source takes. */
  function Run(ctx: Ctx, c: Cursor, replies: seq<Reply>): (f: Final)
    ensures f.consumed <= |replies| && |f.sent| == f.consumed
    ensures f.exit.Pending? ==> f.consumed == |replies|
    ensures replies != [] ==> f.consumed > 0
    decreases |replies|
  {
    if replies == [] then Final(c, Pending, 0, [], [])
    else
      var req := BuildParameters(ctx.cfg, ctx.initialisation, c.offset, ctx.since);
      match StepOn(ctx, c, replies[0])
      case Stop(c', e) => Final(c', e, 1, [c'.data], [req])
      case Next(c', save) =>
        var rest := Run(ctx, c', replies[1..]);
        Final(rest.last, rest.exit, rest.consumed + 1,
              (if save then [c'.data] else []) + rest.saves, [req] + rest.sent)
  }

  /** A run after `k` replies already consumed, `saves` already written and
      `sent` already sent. */
  function Join(k: nat, saves: seq<Store>, sent: seq<Parameters>, f: Final): Final {
    Final(f.last, f.exit, k + f.consumed, saves + f.saves, sent + f.sent)
  }

  /** A loop that has consumed `k` replies and is about to leave on the next
      one ends with that reply's state, one more request and the final save. */
  lemma LoopStops(ctx: Ctx, whole: Final, k: nat, saves: seq<Store>, sent: seq<Parameters>,
                  c: Cursor, rest: seq<Reply>, c': Cursor, e: Exit)
    requires rest != [] && StepOn(ctx, c, rest[0]) == Stop(c', e)
    requires whole == Join(k, saves, sent, Run(ctx, c, rest))
    ensures whole == Final(c', e, k + 1, saves + [c'.data],
                           sent + [BuildParameters(ctx.cfg, ctx.initialisation, c.offset, ctx.since)])
  {
  }

  /** A run whose first reply ends the loop is that reply's request and the
      final save. */
  lemma RunStop(ctx: Ctx, c: Cursor, rest: seq<Reply>, c': Cursor, e: Exit)
    requires rest != [] && StepOn(ctx, c, rest[0]) == Stop(c', e)
    ensures Run(ctx, c, rest)
         == Final(c', e, 1, [c'.data], [BuildParameters(ctx.cfg, ctx.initialisation, c.offset, ctx.since)])
  {
  }

  /** A run whose first reply lets the loop go on is that reply's request
      and checkpoint followed by the run from the next state. */
  lemma RunNext(ctx: Ctx, c: Cursor, rest: seq<Reply>, c': Cursor, save: bool)
    requires rest != [] && StepOn(ctx, c, rest[0]) == Next(c', save)
    ensures Run(ctx, c, rest)
         == Final(Run(ctx, c', rest[1..]).last, Run(ctx, c', rest[1..]).exit,
                  Run(ctx, c', rest[1..]).consumed + 1,
                  (if save then [c'.data] else []) + Run(ctx, c', rest[1..]).saves,
                  [BuildParameters(ctx.cfg, ctx.initialisation, c.offset, ctx.since)]
                    + Run(ctx, c', rest[1..]).sent)
  {
  }

  /** A loop that has consumed `k` replies and goes on after the next one
      has the same outcome as a loop that has consumed `k + 1`. */
  lemma LoopContinues(ctx: Ctx, whole: Final, k: nat, saves: seq<Store>, sent: seq<Parameters>,
                      c: Cursor, rest: seq<Reply>, c': Cursor, save: bool)
    requires rest != [] && StepOn(ctx, c, rest[0]) == Next(c', save)
    requires whole == Join(k, saves, sent, Run(ctx, c, rest))
    ensures whole == Join(k + 1, saves + (if save then [c'.data] else []),
                          sent + [BuildParameters(ctx.cfg, ctx.initialisation, c.offset, ctx.since)],
                          Run(ctx, c', rest[1..]))
  {
    RunNext(ctx, c, rest, c', save);
    JoinStep(k, saves, sent, if save then [c'.data] else [],
             BuildParameters(ctx.cfg, ctx.initialisation, c.offset, ctx.since), Run(ctx, c', rest[1..]));
  }

  /** Moving one reply's request and checkpoints from a run to the part
      already done leaves the joined outcome unchanged. */
  lemma JoinStep(k: nat, saves: seq<Store>, sent: seq<Parameters>, head: seq<Store>, req: Parameters, f: Final)
    ensures Join(k, saves, sent, Final(f.last, f.exit, f.consumed + 1, head + f.saves, [req] + f.sent))
         == Join(k + 1, saves + head, sent + [req], f)
  {
    assert saves + (head + f.saves) == (saves + head) + f.saves;
    assert sent + ([req] + f.sent) == (sent + [req]) + f.sent;
  }

  /** The ingestion: load the initial state, then run the page loop. */
  method Ingest(cfg: Config, file: Option<Store>, nbAppelMax: nat, replies: seq<Reply>)
    returns (out: Result<Final, LoadError>)
    ensures Load(file).Err? ==> out == Err(Load(file).error)
    ensures Load(file).Ok? ==>
      out == Ok(Run(Ctx(cfg, Load(file).value.initialisation, Load(file).value.since, nbAppelMax),
                    Cursor(Load(file).value.data, Load(file).value.offset, 0, 0),
                    replies))
  {
    var offset: nat := 0;
    var since: nat := 0;
    var data: Store;
    var initialisation: bool;

    match file {
      case Some(stored) =>
        data := stored;
        offset := stored.offset.GetOr(0);
        initialisation := stored.etat == Some(DATA_ETAT_INITIALISATION);
        if !initialisation {
          if stored.date.None? {
            return Err(DateNotReadable);
          }
          since := stored.date.value;
        }
      case None =>
        data := EmptyStore();
        initialisation := true;
    }

    var f := PageLoop(cfg, initialisation, since, nbAppelMax, data, offset, replies);
    out := Ok(f);
  }

  /** The page loop: request pages until the list ends, a call fails, the
      call bound is reached, or the replies run out; checkpoint every
      SAVE_EVERY pages and once on leaving the loop. */
  method PageLoop(cfg: Config, initialisation: bool, since: nat, nbAppelMax: nat,
                  data0: Store, offset0: nat, replies: seq<Reply>)
    returns (f: Final)
    ensures f == Run(Ctx(cfg, initialisation, since, nbAppelMax), Cursor(data0, offset0, 0, 0), replies)
  {
    var ctx := Ctx(cfg, initialisation, since, nbAppelMax);
    var c := Cursor(data0, offset0, 0, 0);
    ghost var whole := Run(ctx, c, replies);
    var saves: seq<Store> := [];
    var sent: seq<Parameters> := [];
    var exit := Pending;
    var i := 0;
    while i < |replies|
      invariant 0 <= i <= |replies|
      invariant whole == Join(i, saves, sent, Run(ctx, c, replies[i..]))
    {
      ghost var rest := replies[i..];
      assert rest[0] == replies[i];
      assert rest[1..] == replies[i + 1..];
      ghost var k, saves0, sent0 := i, saves, sent;
      var param := BuildParameters(ctx.cfg, ctx.initialisation, c.offset, ctx.since);
      sent := sent + [param];
      var step := HandleReply(ctx, c, replies[i]);
      i := i + 1;
      match step {
        case Stop(c', e) =>
          LoopStops(ctx, whole, k, saves, sent0, c, rest, c', e);
          c, exit := c', e;
          break;
        case Next(c', save) =>
          LoopContinues(ctx, whole, k, saves, sent0, c, rest, c', save);
          if save {
            saves := saves + [c'.data];
          }
          assert saves == saves0 + (if save then [c'.data] else []);
          assert rest[1..] == replies[i..];
          c := c';
      }
    }

    if !exit.Pending? {
      saves := saves + [c.data];
    }
    f := Final(c, exit, i, saves, sent);
  }

  /** The body of the loop after the request is sent: handle the reply,
      count the page and apply the call bound. */
  method HandleReply(ctx: Ctx, c: Cursor, reply: Reply) returns (step: Step)
    ensures step == StepOn(ctx, c, reply)
  {
    var received := ReceivePage(ctx.initialisation, c, reply);
    assert StepOn(ctx, c, reply) == if received.Stopped? then Stop(received.cursor, received.exit)
                                    else Counted(ctx.nbAppelMax, received.cursor);
    if received.Stopped? {
      return Stop(received.cursor, received.exit);
    }
    var count := received.cursor.count + 1;
    var next := received.cursor.(count := count);
    if ctx.nbAppelMax > 0 && count >= ctx.nbAppelMax {
      return Stop(next, CallLimit);
    }
    step := Next(next, count % SAVE_EVERY == 0);
  }

  /** The handling of one reply inside the loop: the status and body checks,
      then either the merge of the page or the end-of-list bookkeeping. */
  method ReceivePage(initialisation: bool, c: Cursor, reply: Reply) returns (r: Received)
    ensures r == Receive(initialisation, c, reply)
  {
    var data, offset, dernierSince := c.data, c.offset, c.dernierSince;
    if reply.TransportError? {
      return Stopped(c, RequestFailed);
    }
    if reply.status != 200 {
      var exit := if reply.status == 404 then NotFound
                  else if reply.status == 400 then BadRequest
                  else UnexpectedStatus(reply.status);
      return Stopped(c, exit);
    }
    if reply.body.None? {
      return Stopped(c, BodyUnreadable);
    }
    var page := reply.body.value;
    if page.list.Some? {
      var items := page.list.value;
      offset := offset + |items|;
      var liste := MergePage(data.liste, items);
      data := data.(liste := liste);
      data := data.(offset := Some(offset));
      var date := page.since.GetOr(-1);
      if date > 0 {
        dernierSince := date;
      }
      r := Listed(Cursor(data, offset, dernierSince, c.count));
    } else {
      if dernierSince > 0 {
        data := data.(date := Some(dernierSince));
      }
      if initialisation {
        data := data.(etat := Some(DATA_ETAT_MISE_A_JOUR));
      }
      r := Stopped(Cursor(data, offset, dernierSince, c.count), EndOfList);
    }
  }
}
