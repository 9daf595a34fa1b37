/** Properties of the ingestion loop of src/main.rs: what one iteration does
    for each kind of reply, and what a whole run does to the item map, the
    offset, the page count, the requests and the checkpoints. */
module SyncProperties {
  import opened Values
  import opened Sync

  /** The entries of a reply that carries a page whose `list` is an object. */
  function PageItems(r: Reply): Option<map<string, Json>> {
    if r.Response? && r.status == 200 && r.body.Some? && r.body.value.list.Some?
    then Some(r.body.value.list.value)
    else None
  }

  /** The number of entries such a reply carries, 0 for any other reply. */
  function PageSize(r: Reply): nat {
    match PageItems(r)
    case Some(items) => |items|
    case None => 0
  }

  /** The item map after merging, in order, the pages among `replies`. */
  function MergeAll(liste: map<string, Json>, replies: seq<Reply>): map<string, Json>
    decreases |replies|
  {
    if replies == [] then liste
    else
      var next := match PageItems(replies[0]) case Some(items) => Merged(liste, items) case None => liste;
      MergeAll(next, replies[1..])
  }

  /** The total number of entries in the pages among `replies`. */
  function ItemCount(replies: seq<Reply>): nat
    decreases |replies|
  {
    if replies == [] then 0 else PageSize(replies[0]) + ItemCount(replies[1..])
  }

  /** The number of pages among `replies`. */
  function PageCount(replies: seq<Reply>): nat
    decreases |replies|
  {
    if replies == [] then 0
    else (if PageItems(replies[0]).Some? then 1 else 0) + PageCount(replies[1..])
  }

  /** A reply that stops the loop before anything is merged. */
  predicate IsFailure(r: Reply) {
    r.TransportError? || r.status != 200 || r.body.None?
  }

  // ----- the merge -----

  /** Merging the same page twice gives the same map as merging it once. */
  lemma MergeIdempotent(liste: map<string, Json>, items: map<string, Json>)
    ensures Merged(Merged(liste, items), items) == Merged(liste, items)
  {
  }

  /** Merging never removes a key, and keeps the value of every key the
      page does not mention. */
  lemma {:induction false} MergeAllKeeps(liste: map<string, Json>, replies: seq<Reply>)
    ensures liste.Keys <= MergeAll(liste, replies).Keys
    ensures forall k :: k in liste && (forall j :: 0 <= j < |replies| && PageItems(replies[j]).Some? ==> k !in PageItems(replies[j]).value)
                        ==> MergeAll(liste, replies)[k] == liste[k]
    decreases |replies|
  {
    if replies != [] {
      var next := match PageItems(replies[0]) case Some(items) => Merged(liste, items) case None => liste;
      MergeAllKeeps(next, replies[1..]);
      forall k | k in liste && (forall j :: 0 <= j < |replies| && PageItems(replies[j]).Some? ==> k !in PageItems(replies[j]).value)
        ensures MergeAll(liste, replies)[k] == liste[k]
      {
        forall j | 0 <= j < |replies[1..]| && PageItems(replies[1..][j]).Some?
          ensures k !in PageItems(replies[1..][j]).value
        {
          assert replies[1..][j] == replies[j + 1];
        }
        assert PageItems(replies[0]).Some? ==> k !in PageItems(replies[0]).value;
      }
    }
  }

  // ----- the request -----

  /** The serialised request carries `since` exactly when the initial
      download is over, and then carries the stored watermark. */
  lemma RequestSinceOnlyAfterInitialisation(cfg: Config, initialisation: bool, offset: nat, since: nat)
    ensures var body := RequestBody(BuildParameters(cfg, initialisation, offset, since));
      && ("since" in body <==> !initialisation)
      && (!initialisation ==> body["since"] == Num(since))
      && body["offset"] == Num(offset)
  {
  }

  /** Reading a serialised request back gives the same parameters. */
  lemma RequestRoundTrip(p: Parameters)
    ensures ParseParameters(RequestBody(p)) == Some(p)
  {
    var body := RequestBody(p);
    assert body["consumer_key"] == Str(p.consumerKey);
    assert body["access_token"] == Str(p.accessToken);
    assert body["detailType"] == Str(p.detailType);
    assert body["count"] == Num(p.count);
    assert body["total"] == Num(p.total);
    assert body["sort"] == Str(p.sort);
  }

  /** A request whose `since` is written as null rather than skipped reads
      back as the same parameters without a watermark. */
  lemma NullSinceReadsAsNone(p: Parameters)
    ensures ParseParameters(RequestBody(p)["since" := Null]) == Some(p.(since := None))
  {
    var body := RequestBody(p)["since" := Null];
    assert body["consumer_key"] == Str(p.consumerKey);
    assert body["access_token"] == Str(p.accessToken);
    assert body["detailType"] == Str(p.detailType);
    assert body["count"] == Num(p.count);
    assert body["offset"] == Num(p.offset);
    assert body["total"] == Num(p.total);
    assert body["sort"] == Str(p.sort);
  }

  // ----- one iteration -----

  /** Merging a page moves the offset by the page size and records it,
      merges the entries, leaves the state tag, the date and the count
      alone, and takes the page's `since` as the candidate watermark only
      when it is positive. */
  lemma WithItemsUpdates(c: Cursor, items: map<string, Json>, since: Option<int>)
    ensures var w := WithItems(c, items, since);
      && w.offset == c.offset + |items| && w.data.offset == Some(w.offset)
      && w.data.liste == Merged(c.data.liste, items)
      && w.data.etat == c.data.etat && w.data.date == c.data.date && w.count == c.count
      && w.dernierSince == if since.Some? && since.value > 0 then since.value else c.dernierSince
  {
  }

  /** A page whose `list` is an object moves the offset by exactly the page
      size, stores the new offset in the record, merges the entries, leaves
      the state tag and the date alone, and counts one more page. */
  lemma PageAdvancesOffset(ctx: Ctx, c: Cursor, items: map<string, Json>, since: Option<int>)
    ensures var s := StepOn(ctx, c, Response(200, Some(Page(Some(items), since))));
      && s.cursor.offset == c.offset + |items|
      && s.cursor.data.offset == Some(s.cursor.offset)
      && s.cursor.data.liste == Merged(c.data.liste, items)
      && s.cursor.data.etat == c.data.etat && s.cursor.data.date == c.data.date
      && s.cursor.count == c.count + 1
  {
  }

  /** The candidate watermark takes the page's `since` only when it is
      positive, and otherwise keeps its previous value. */
  lemma PageTracksWatermark(ctx: Ctx, c: Cursor, items: map<string, Json>, since: Option<int>)
    ensures var s := StepOn(ctx, c, Response(200, Some(Page(Some(items), since))));
      && (since.Some? && since.value > 0 ==> s.cursor.dernierSince == since.value)
      && (!(since.Some? && since.value > 0) ==> s.cursor.dernierSince == c.dernierSince)
  {
  }

  /** An empty `list` object does not end the loop by itself: it changes no
      entry and no offset, and only counts one more page. */
  lemma EmptyPageContinues(ctx: Ctx, c: Cursor, since: Option<int>)
    ensures var s := StepOn(ctx, c, Response(200, Some(Page(Some(map[]), since))));
      && s.cursor.count == c.count + 1
      && s.cursor.offset == c.offset
      && s.cursor.data.liste == c.data.liste
      && (s.Stop? <==> ctx.nbAppelMax > 0 && c.count + 1 >= ctx.nbAppelMax)
      && (s.Stop? ==> s.exit == CallLimit)
  {
    assert Merged(c.data.liste, map[]) == c.data.liste;
  }

  /** A reply whose `list` is not an object ends the loop: the stored date
      becomes the candidate watermark exactly when it is positive, the state
      tag becomes miseAJour exactly when this run was the initial download,
      and the entries and offsets stay as they were. */
  lemma EndOfListCommits(ctx: Ctx, c: Cursor, since: Option<int>)
    ensures var s := StepOn(ctx, c, Response(200, Some(Page(None, since))));
      && s == Stop(s.cursor, EndOfList)
      && (c.dernierSince > 0 ==> s.cursor.data.date == Some(c.dernierSince))
      && (c.dernierSince == 0 ==> s.cursor.data.date == c.data.date)
      && (ctx.initialisation ==> s.cursor.data.etat == Some(DATA_ETAT_MISE_A_JOUR))
      && (!ctx.initialisation ==> s.cursor.data.etat == c.data.etat)
      && s.cursor.data.liste == c.data.liste
      && s.cursor.data.offset == c.data.offset
      && s.cursor.offset == c.offset && s.cursor.count == c.count
  {
  }

  /** A transport error, a body that cannot be read, or any status other
      than 200 ends the loop and changes nothing. */
  lemma FailureStopsUnchanged(ctx: Ctx, c: Cursor, r: Reply)
    requires IsFailure(r)
    ensures var s := StepOn(ctx, c, r);
      && s.Stop? && s.cursor == c
      && s.exit != EndOfList && s.exit != CallLimit && s.exit != Pending
      && (r.Response? && r.status == 404 ==> s.exit == NotFound)
      && (r.Response? && r.status == 400 ==> s.exit == BadRequest)
  {
  }

  /** The classification of a reply: only a 200 whose body holds a `list`
      object is merged; a 200 whose `list` is of another type ends the list;
      every other reply stops the loop with the state unchanged. No reply
      leaves on the call bound or as pending. */
  lemma ReceiveClassifies(initialisation: bool, c: Cursor, r: Reply)
    ensures var rc := Receive(initialisation, c, r);
      && (rc.Listed? <==> r.Response? && r.status == 200 && r.body.Some? && r.body.value.list.Some?)
      && (rc.Stopped? ==>
            (rc.exit == EndOfList <==> r.Response? && r.status == 200 && r.body.Some? && r.body.value.list.None?))
      && (rc.Stopped? && rc.exit != EndOfList ==> rc.cursor == c)
      && (rc.Stopped? ==> !rc.exit.Pending? && !rc.exit.CallLimit?)
  {
  }

  /** One iteration continues only after a merged page, which it counts;
      it never leaves as pending, and it leaves on the call bound only once
      the count has reached it. */
  lemma StepOnOutcome(ctx: Ctx, c: Cursor, r: Reply)
    ensures var s := StepOn(ctx, c, r);
      && (s.Next? ==> Receive(ctx.initialisation, c, r).Listed? && s.cursor.count == c.count + 1)
      && (s.Stop? ==> !s.exit.Pending?)
      && (s.Stop? && s.exit == CallLimit ==> ctx.nbAppelMax > 0 && s.cursor.count >= ctx.nbAppelMax)
  {
  }

  /** One iteration in terms of the page it received (if any): the item map,
      the offset and the count move exactly as that page says, and only a
      page lets the loop go on, with a checkpoint exactly when the count
      reaches a multiple of SAVE_EVERY. */
  lemma StepSummary(ctx: Ctx, c: Cursor, r: Reply)
    ensures var s := StepOn(ctx, c, r);
      && s.cursor.data.liste == (match PageItems(r) case Some(items) => Merged(c.data.liste, items) case None => c.data.liste)
      && s.cursor.offset == c.offset + PageSize(r)
      && s.cursor.count == c.count + (if PageItems(r).Some? then 1 else 0)
      && (s.Next? ==> PageItems(r).Some? && (s.save <==> s.cursor.count % SAVE_EVERY == 0))
      && (s.Stop? && s.exit == CallLimit ==> PageItems(r).Some? && ctx.nbAppelMax > 0 && s.cursor.count >= ctx.nbAppelMax)
      && (PageItems(r).Some? && !(ctx.nbAppelMax > 0 && c.count + 1 >= ctx.nbAppelMax) ==> s.Next?)
      && s.cursor.data.liste.Keys >= c.data.liste.Keys
      && (PageItems(r).Some? ==> s.cursor.data.offset == Some(s.cursor.offset))
      && (PageItems(r).None? ==> s.cursor.data.offset == c.data.offset)
  {
    match PageItems(r)
    case Some(items) =>
      var since := r.body.value.since;
      assert r == Response(200, Some(Page(Some(items), since)));
      var c' := WithItems(c, items, since);
      assert StepOn(ctx, c, r) == Counted(ctx.nbAppelMax, c');
      assert c'.data.liste == Merged(c.data.liste, items);
    case None =>
      var rc := Receive(ctx.initialisation, c, r);
      assert rc.Stopped?;
      assert rc.cursor.data.liste == c.data.liste && rc.cursor.offset == c.offset;
      assert StepOn(ctx, c, r) == Stop(rc.cursor, rc.exit);
  }

  // ----- a whole run -----

  /** The item map at the end of a run is the start map with every consumed
      page merged in, in order. */
  lemma {:induction false} RunMergesPages(ctx: Ctx, c: Cursor, replies: seq<Reply>)
    ensures var f := Run(ctx, c, replies);
      f.last.data.liste == MergeAll(c.data.liste, replies[..f.consumed])
    decreases |replies|
  {
    if replies != [] {
      var f := Run(ctx, c, replies);
      StepSummary(ctx, c, replies[0]);
      match StepOn(ctx, c, replies[0])
      case Stop(c', e) =>
        assert replies[..f.consumed] == [replies[0]];
      case Next(c', save) =>
        RunMergesPages(ctx, c', replies[1..]);
        var g := Run(ctx, c', replies[1..]);
        assert replies[..f.consumed][0] == replies[0];
        assert replies[..f.consumed][1..] == replies[1..][..g.consumed];
    }
  }

  /** The offset at the end of a run is the start offset plus the sizes of
      the consumed pages, and the page count grows by the number of pages. */
  lemma {:induction false} RunAdvancesOffset(ctx: Ctx, c: Cursor, replies: seq<Reply>)
    ensures var f := Run(ctx, c, replies);
      && f.last.offset == c.offset + ItemCount(replies[..f.consumed])
      && f.last.count == c.count + PageCount(replies[..f.consumed])
    decreases |replies|
  {
    if replies != [] {
      var f := Run(ctx, c, replies);
      StepSummary(ctx, c, replies[0]);
      match StepOn(ctx, c, replies[0])
      case Stop(c', e) =>
        assert replies[..f.consumed] == [replies[0]];
        assert [replies[0]][1..] == [];
      case Next(c', save) =>
        RunAdvancesOffset(ctx, c', replies[1..]);
        var g := Run(ctx, c', replies[1..]);
        assert replies[..f.consumed][0] == replies[0];
        assert replies[..f.consumed][1..] == replies[1..][..g.consumed];
    }
  }

  /** The record's offset agrees with the loop offset at the end of a run
      once it agreed at the start or a page has been merged. */
  lemma {:induction false} RunRecordsOffset(ctx: Ctx, c: Cursor, replies: seq<Reply>)
    ensures var f := Run(ctx, c, replies);
      c.data.offset == Some(c.offset) || f.last.count > c.count ==> f.last.data.offset == Some(f.last.offset)
    decreases |replies|
  {
    if replies != [] {
      StepSummary(ctx, c, replies[0]);
      match StepOn(ctx, c, replies[0])
      case Stop(c', e) =>
      case Next(c', save) =>
        RunRecordsOffset(ctx, c', replies[1..]);
    }
  }

  /** No key present at the start of a run is missing at its end. */
  lemma {:induction false} RunKeepsKeys(ctx: Ctx, c: Cursor, replies: seq<Reply>)
    ensures c.data.liste.Keys <= Run(ctx, c, replies).last.data.liste.Keys
    decreases |replies|
  {
    if replies != [] {
      StepSummary(ctx, c, replies[0]);
      match StepOn(ctx, c, replies[0])
      case Stop(c', e) =>
      case Next(c', save) =>
        RunKeepsKeys(ctx, c', replies[1..]);
    }
  }

  /** With a positive bound, a run that starts below it processes pages up
      to the bound and no further; the loop leaves on the bound exactly at it. */
  lemma {:induction false} RunRespectsCallBound(ctx: Ctx, c: Cursor, replies: seq<Reply>)
    requires ctx.nbAppelMax > 0 && c.count < ctx.nbAppelMax
    ensures var f := Run(ctx, c, replies);
      && f.last.count <= ctx.nbAppelMax
      && (f.exit == CallLimit ==> f.last.count == ctx.nbAppelMax)
      && (f.last.count == ctx.nbAppelMax ==> f.exit == CallLimit)
    decreases |replies|
  {
    if replies != [] {
      StepSummary(ctx, c, replies[0]);
      match StepOn(ctx, c, replies[0])
      case Stop(c', e) =>
      case Next(c', save) =>
        RunRespectsCallBound(ctx, c', replies[1..]);
    }
  }

  /** With a bound of 0 the loop never leaves on the bound: fed only pages,
      it processes every one of them and is still waiting for more. */
  lemma {:induction false} RunUnboundedWithZero(ctx: Ctx, c: Cursor, replies: seq<Reply>)
    requires ctx.nbAppelMax == 0
    requires forall j :: 0 <= j < |replies| ==> PageItems(replies[j]).Some?
    ensures var f := Run(ctx, c, replies);
      && f.exit == Pending && f.consumed == |replies|
      && f.last.count == c.count + |replies|
    decreases |replies|
  {
    if replies != [] {
      StepSummary(ctx, c, replies[0]);
      var s := StepOn(ctx, c, replies[0]);
      assert s.Next?;
      assert forall j :: 0 <= j < |replies[1..]| ==> replies[1..][j] == replies[j + 1];
      RunUnboundedWithZero(ctx, s.cursor, replies[1..]);
    }
  }

  /** With a bound of 0 no run, whatever its replies, leaves on the bound. */
  lemma {:induction false} RunNeverBoundWithZero(ctx: Ctx, c: Cursor, replies: seq<Reply>)
    requires ctx.nbAppelMax == 0
    ensures Run(ctx, c, replies).exit != CallLimit
    decreases |replies|
  {
    if replies != [] {
      StepSummary(ctx, c, replies[0]);
      match StepOn(ctx, c, replies[0])
      case Stop(c', e) =>
      case Next(c', save) =>
        RunNeverBoundWithZero(ctx, c', replies[1..]);
    }
  }

  /** The request sent for each reply of `replies` if the loop takes them
      all: each asks for the offset the pages before it lead to. */
  function Requests(ctx: Ctx, offset: nat, replies: seq<Reply>): (rs: seq<Parameters>)
    ensures |rs| == |replies|
    decreases |replies|
  {
    if replies == [] then []
    else [BuildParameters(ctx.cfg, ctx.initialisation, offset, ctx.since)]
         + Requests(ctx, offset + PageSize(replies[0]), replies[1..])
  }

  /** A reply that lets the loop go on moves the offset by its page size. */
  lemma NextOffset(ctx: Ctx, c: Cursor, r: Reply)
    ensures StepOn(ctx, c, r).Next? ==> StepOn(ctx, c, r).cursor.offset == c.offset + PageSize(r)
  {
    StepSummary(ctx, c, r);
  }

  /** The requests of a run are, in order, those for the replies it
      consumes. */
  lemma {:induction false} RunRequests(ctx: Ctx, c: Cursor, replies: seq<Reply>)
    ensures var f := Run(ctx, c, replies);
      f.sent == Requests(ctx, c.offset, replies)[..f.consumed]
    decreases |replies|
  {
    if replies != [] {
      var req := BuildParameters(ctx.cfg, ctx.initialisation, c.offset, ctx.since);
      var f := Run(ctx, c, replies);
      match StepOn(ctx, c, replies[0])
      case Stop(c', e) =>
        assert f.sent == [req] + [] && f.consumed == 1 by {
          RunStop(ctx, c, replies, c', e);
        }
        RequestsCons(ctx, c.offset, replies, f.sent, [], 0);
      case Next(c', save) =>
        var g := Run(ctx, c', replies[1..]);
        assert f.sent == [req] + g.sent && f.consumed == g.consumed + 1 by {
          RunNext(ctx, c, replies, c', save);
        }
        assert c'.offset == c.offset + PageSize(replies[0]) by {
          NextOffset(ctx, c, replies[0]);
        }
        assert g.sent == Requests(ctx, c'.offset, replies[1..])[..g.consumed] by {
          RunRequests(ctx, c', replies[1..]);
        }
        RequestsCons(ctx, c.offset, replies, f.sent, g.sent, g.consumed);
    }
  }

  /** The request for the first reply followed by the first n requests for
      the rest are the first n + 1 requests. */
  lemma RequestsCons(ctx: Ctx, offset: nat, replies: seq<Reply>, sent: seq<Parameters>, later: seq<Parameters>, n: nat)
    requires replies != [] && n < |replies|
    requires later == Requests(ctx, offset + PageSize(replies[0]), replies[1..])[..n]
    requires sent == [BuildParameters(ctx.cfg, ctx.initialisation, offset, ctx.since)] + later
    ensures sent == Requests(ctx, offset, replies)[..n + 1]
  {
    var tail := Requests(ctx, offset + PageSize(replies[0]), replies[1..]);
    assert Requests(ctx, offset, replies) == [sent[0]] + tail;
    assert ([sent[0]] + tail)[..n + 1] == [sent[0]] + tail[..n];
  }

  /** The j-th request has the fixed fields, the watermark filter exactly
      when the initial download is over, and the start offset plus the
      entries of the j pages before it. */
  lemma {:induction false} RequestsAtOffsets(ctx: Ctx, offset: nat, replies: seq<Reply>)
    ensures forall j :: 0 <= j < |replies| ==>
      Requests(ctx, offset, replies)[j] == BuildParameters(ctx.cfg, ctx.initialisation, offset + ItemCount(replies[..j]), ctx.since)
    decreases |replies|
  {
    if replies != [] {
      var rs := Requests(ctx, offset, replies);
      var next := offset + PageSize(replies[0]);
      RequestsAtOffsets(ctx, next, replies[1..]);
      assert ItemCount(replies[..0]) == 0 by { assert replies[..0] == []; }
      forall j | 1 <= j < |replies|
        ensures rs[j] == BuildParameters(ctx.cfg, ctx.initialisation, offset + ItemCount(replies[..j]), ctx.since)
      {
        assert rs[j] == Requests(ctx, next, replies[1..])[j - 1];
        RequestOffsetStep(replies, j);
      }
    }
  }

  /** The entries before the j-th reply are those of the first reply and of
      the j - 1 replies after it. */
  lemma RequestOffsetStep(replies: seq<Reply>, j: nat)
    requires 1 <= j <= |replies|
    ensures ItemCount(replies[..j]) == PageSize(replies[0]) + ItemCount(replies[1..][..j - 1])
  {
    assert replies[..j][0] == replies[0];
    assert replies[..j][1..] == replies[1..][..j - 1];
  }

  /** Every exit the source takes ends with a save of the final record. */
  lemma {:induction false} RunSavesAtExit(ctx: Ctx, c: Cursor, replies: seq<Reply>)
    ensures var f := Run(ctx, c, replies);
      !f.exit.Pending? ==> f.saves != [] && f.saves[|f.saves| - 1] == f.last.data
    decreases |replies|
  {
    if replies != [] {
      match StepOn(ctx, c, replies[0])
      case Stop(c', e) =>
      case Next(c', save) =>
        RunSavesAtExit(ctx, c', replies[1..]);
    }
  }

  /** The number of saves: one for every multiple of SAVE_EVERY the page
      count passes (except one reached at the call bound, where the loop
      leaves before checkpointing), plus the final save on leaving. */
  lemma {:induction false} RunCheckpointCount(ctx: Ctx, c: Cursor, replies: seq<Reply>)
    ensures var f := Run(ctx, c, replies);
      |f.saves| == f.last.count / SAVE_EVERY - c.count / SAVE_EVERY
                   - (if f.exit == CallLimit && f.last.count % SAVE_EVERY == 0 then 1 else 0)
                   + (if f.exit.Pending? then 0 else 1)
    decreases |replies|
  {
    if replies != [] {
      StepSummary(ctx, c, replies[0]);
      match StepOn(ctx, c, replies[0])
      case Stop(c', e) =>
      case Next(c', save) =>
        RunCheckpointCount(ctx, c', replies[1..]);
    }
  }

  /** Checkpoints never lose entries: every snapshot saved during a run holds
      all the keys the run started with, and the run ends with all the keys
      of every snapshot. */
  lemma {:induction false} RunSnapshotsGrow(ctx: Ctx, c: Cursor, replies: seq<Reply>)
    ensures var f := Run(ctx, c, replies);
      KeysBetween(c.data.liste.Keys, f.saves, f.last.data.liste.Keys)
    decreases |replies|
  {
    if replies != [] {
      var f := Run(ctx, c, replies);
      var s := StepOn(ctx, c, replies[0]);
      assert c.data.liste.Keys <= s.cursor.data.liste.Keys by {
        StepSummary(ctx, c, replies[0]);
      }
      match s
      case Stop(c', e) =>
        assert f.saves == [c'.data] && f.last == c' by {
          RunStop(ctx, c, replies, c', e);
        }
      case Next(c', save) =>
        var g := Run(ctx, c', replies[1..]);
        var head := if save then [c'.data] else [];
        assert f.saves == head + g.saves && f.last == g.last by {
          RunNext(ctx, c, replies, c', save);
        }
        assert c'.data.liste.Keys <= g.last.data.liste.Keys by {
          RunKeepsKeys(ctx, c', replies[1..]);
        }
        assert KeysBetween(c'.data.liste.Keys, g.saves, g.last.data.liste.Keys) by {
          RunSnapshotsGrow(ctx, c', replies[1..]);
        }
        assert KeysBetween(c'.data.liste.Keys, head, c'.data.liste.Keys);
        KeysBetweenCons(c.data.liste.Keys, c'.data.liste.Keys, g.last.data.liste.Keys, head, g.saves);
    }
  }

  /** Every snapshot in `saves` holds at least the keys `lo` and at most the
      keys `hi`. */
  ghost predicate KeysBetween(lo: set<string>, saves: seq<Store>, hi: set<string>) {
    forall j :: 0 <= j < |saves| ==> lo <= saves[j].liste.Keys <= hi
  }

  /** Snapshots taken at a state with keys `mid`, followed by snapshots
      between `mid` and `hi`, are all between any `lo` below `mid` and `hi`. */
  lemma KeysBetweenCons(lo: set<string>, mid: set<string>, hi: set<string>, head: seq<Store>, rest: seq<Store>)
    requires lo <= mid <= hi
    requires KeysBetween(mid, head, mid) && KeysBetween(mid, rest, hi)
    ensures KeysBetween(lo, head + rest, hi)
  {
    forall j | 0 <= j < |head + rest| ensures lo <= (head + rest)[j].liste.Keys <= hi {
      if j < |head| {
        assert (head + rest)[j] == head[j];
      } else {
        assert (head + rest)[j] == rest[j - |head|];
      }
    }
  }

  /** A failing first call leaves the store exactly as loaded and saves it
      once. */
  lemma FirstCallFailsKeepsStore(ctx: Ctx, c: Cursor, replies: seq<Reply>)
    requires replies != [] && IsFailure(replies[0])
    ensures var f := Run(ctx, c, replies);
      f.last == c && f.saves == [c.data] && f.consumed == 1
  {
    FailureStopsUnchanged(ctx, c, replies[0]);
  }
}
