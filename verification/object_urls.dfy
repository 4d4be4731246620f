/**
 * The browser's object-URL store (`URL.createObjectURL` / `URL.revokeObjectURL`)
 * and the export discipline `makeImgFileUrl` keeps with it: the URL made for
 * the previous export is revoked before the next one is created.
 */
module ObjectUrls {
  import opened Common

  /** An object URL, as an abstract handle; the store never hands out the same one twice. */
  type Handle = nat

  /** The bytes of an exported image. */
  type Blob = seq<bv8>

  /** One call into the store. */
  datatype UrlEvent = Created(handle: Handle) | Revoked(handle: Handle)

  /** The handles alive after the calls in `log`, oldest first. */
  function LiveSet(log: seq<UrlEvent>): set<Handle>
    decreases |log|
  {
    if log == [] then {}
    else match Last(log)
      case Created(h) => LiveSet(log[..|log| - 1]) + {h}
      case Revoked(h) => LiveSet(log[..|log| - 1]) - {h}
  }

  /**
   * The outcome of one export: `Some(h)` when the store made URL `h`, `None`
   * when `createObjectURL` threw because the canvas handed over no blob.
   */
  type Outcome = Option<Handle>

  /** What `_urlCache` holds after the exports `outcomes`: the last URL made, if any. */
  function CacheAfter(outcomes: seq<Outcome>): Option<Handle>
    decreases |outcomes|
  {
    if outcomes == [] then None
    else if Last(outcomes).Some? then Last(outcomes)
    else CacheAfter(outcomes[..|outcomes| - 1])
  }

  /**
   * The calls a viewer makes to the store for exports with `outcomes`, in
   * order: each export revokes the cached URL, if any, then creates a URL
   * unless creation threw.
   */
  function ExportLog(outcomes: seq<Outcome>): seq<UrlEvent>
    decreases |outcomes|
  {
    if outcomes == [] then []
    else
      var before := outcomes[..|outcomes| - 1];
      var cache := CacheAfter(before);
      ExportLog(before)
        + (if cache.Some? then [Revoked(cache.value)] else [])
        + (if Last(outcomes).Some? then [Created(Last(outcomes).value)] else [])
  }

  /** One more call: a creation adds its handle, a revocation removes it. */
  lemma LiveSetSnoc(log: seq<UrlEvent>, e: UrlEvent)
    ensures LiveSet(log + [e]) == if e.Created? then LiveSet(log) + {e.handle} else LiveSet(log) - {e.handle}
  {
    assert (log + [e])[..|log|] == log;
  }

  /**
   * After any exports, the only live URL is the one the last export made; an
   * export that threw leaves none live, and the cache then names a revoked URL.
   */
  lemma {:induction false} ExportLogLive(outcomes: seq<Outcome>)
    ensures LiveSet(ExportLog(outcomes)) == if outcomes != [] && Last(outcomes).Some? then {Last(outcomes).value} else {}
    ensures outcomes != [] && Last(outcomes).Some? ==> CacheAfter(outcomes) == Last(outcomes)
    decreases |outcomes|
  {
    if outcomes != [] {
      var before := outcomes[..|outcomes| - 1];
      var cache := CacheAfter(before);
      var e := ExportLog(before);
      ExportLogLive(before);
      var revoked := e + (if cache.Some? then [Revoked(cache.value)] else []);
      assert LiveSet(revoked) == {} by {
        if cache.Some? {
          LiveSetSnoc(e, Revoked(cache.value));
        } else {
          assert revoked == e;
        }
      }
      if Last(outcomes).Some? {
        assert ExportLog(outcomes) == revoked + [Created(Last(outcomes).value)];
        LiveSetSnoc(revoked, Created(Last(outcomes).value));
      } else {
        assert ExportLog(outcomes) == revoked;
      }
    }
  }

  /** One more export: the cached URL's revocation, then the new URL's creation if it did not throw. */
  lemma ExportLogExtend(before: seq<Outcome>, outcome: Outcome)
    ensures ExportLog(before + [outcome])
            == ExportLog(before)
                 + (if CacheAfter(before).Some? then [Revoked(CacheAfter(before).value)] else [])
                 + (if outcome.Some? then [Created(outcome.value)] else [])
    ensures CacheAfter(before + [outcome]) == if outcome.Some? then outcome else CacheAfter(before)
    ensures LiveSet(ExportLog(before + [outcome])) == if outcome.Some? then {outcome.value} else {}
  {
    assert (before + [outcome])[..|before|] == before;
    ExportLogLive(before + [outcome]);
  }

  /** Exports never have two URLs alive at once, not even between a revocation and the next creation. */
  lemma {:induction false} ExportLogNeverTwoLive(outcomes: seq<Outcome>, k: nat)
    requires k <= |ExportLog(outcomes)|
    ensures |LiveSet(ExportLog(outcomes)[..k])| <= 1
    decreases |outcomes|
  {
    var log := ExportLog(outcomes);
    if outcomes == [] {
      assert log[..k] == [];
    } else {
      var before := outcomes[..|outcomes| - 1];
      var cache := CacheAfter(before);
      var e := ExportLog(before);
      assert log[..|e|] == e;
      if k <= |e| {
        assert log[..k] == e[..k];
        ExportLogNeverTwoLive(before, k);
      } else if k == |log| {
        assert log[..k] == log;
        ExportLogLive(outcomes);
      } else {
        // the prefix ends with the revocation of the cached URL
        assert cache.Some?;
        ExportLogLive(before);
        var revoked := e + [Revoked(cache.value)];
        assert log[..k] == revoked;
        LiveSetSnoc(e, Revoked(cache.value));
      }
    }
  }

  /**
   * The page's object-URL store: the blob each live URL names, the next handle
   * to hand out, and every call made to it so far, in order.
   */
  datatype UrlStore = UrlStore(objects: map<Handle, Blob>, next: Handle, calls: seq<UrlEvent>)

  /**
   * Every URL handed out so far, live or revoked, lies below `next`, so a
   * handle at or above `next` is new; and the live URLs are exactly those the
   * calls so far left live.
   */
  ghost predicate StoreValid(s: UrlStore) {
    && (forall i :: 0 <= i < |s.calls| && s.calls[i].Created? ==> s.calls[i].handle < s.next)
    && (forall h :: h in s.objects ==> h < s.next)
    && s.objects.Keys == LiveSet(s.calls)
  }

  /** The store of a page that has made no object URL. */
  function EmptyStore(): (s: UrlStore)
    ensures StoreValid(s) && s.objects == map[] && s.calls == []
  {
    UrlStore(map[], 0, [])
  }

  /** `URL.createObjectURL(blob)`: a URL never handed out before, now naming `blob`. */
  function CreateObjectUrl(s: UrlStore, blob: Blob): (r: (UrlStore, Handle))
    ensures r.1 >= s.next && r.0.next > r.1
    ensures StoreValid(s) ==> StoreValid(r.0) && r.1 !in s.objects && Created(r.1) !in s.calls
    ensures r.0.objects == s.objects[r.1 := blob]
    ensures r.0.calls == s.calls + [Created(r.1)]
  {
    LiveSetSnoc(s.calls, Created(s.next));
    (UrlStore(s.objects[s.next := blob], s.next + 1, s.calls + [Created(s.next)]), s.next)
  }

  /** `URL.revokeObjectURL(h)`: `h` no longer names anything; revoking an unknown URL changes nothing else. */
  function RevokeObjectUrl(s: UrlStore, h: Handle): (r: UrlStore)
    ensures StoreValid(s) ==> StoreValid(r)
    ensures h !in r.objects && r.next == s.next
    ensures forall g :: g != h ==> (g in r.objects <==> g in s.objects)
    ensures forall g :: g != h && g in r.objects ==> r.objects[g] == s.objects[g]
    ensures r.calls == s.calls + [Revoked(h)]
  {
    LiveSetSnoc(s.calls, Revoked(h));
    UrlStore(s.objects - {h}, s.next, s.calls + [Revoked(h)])
  }

  /**
   * What a viewer's export state keeps: the store is valid, the calls made to
   * it are the ones exports with `outcomes` make, and the cache holds the last
   * URL made, which the store handed out earlier.
   */
  ghost predicate ExportsInv(cache: Option<Handle>, store: UrlStore, outcomes: seq<Outcome>) {
    && StoreValid(store)
    && store.calls == ExportLog(outcomes)
    && cache == CacheAfter(outcomes)
    && (cache.Some? ==> cache.value < store.next)
  }

  /**
   * One export keeps the invariant. The cached URL, if any, is revoked first.
   * With a blob, a new URL naming it is then made, cached, and alone live;
   * without one, creation throws, the cache keeps the revoked URL and none is live.
   */
  lemma ExportKeepsInv(cache: Option<Handle>, store: UrlStore, outcomes: seq<Outcome>, data: Option<Blob>)
    requires ExportsInv(cache, store, outcomes)
    ensures var mid := if cache.Some? then RevokeObjectUrl(store, cache.value) else store;
            match data
            case Some(blob) =>
              var r := CreateObjectUrl(mid, blob);
              && ExportsInv(Some(r.1), r.0, outcomes + [Some(r.1)])
              && r.0.objects.Keys == {r.1} && r.0.objects[r.1] == blob
            case None =>
              && ExportsInv(cache, mid, outcomes + [None])
              && mid.objects.Keys == {}
  {
    var mid := if cache.Some? then RevokeObjectUrl(store, cache.value) else store;
    ExportLogLive(outcomes);
    assert mid.objects.Keys == {};
    match data
    case Some(blob) =>
      var r := CreateObjectUrl(mid, blob);
      ExportLogExtend(outcomes, Some(r.1));
    case None =>
      var revoked := if cache.Some? then [Revoked(cache.value)] else [];
      ExportLogExtend(outcomes, None);
      assert ExportLog(outcomes + [None]) == store.calls + revoked;
  }

  /**
   * The order matters: creating the new URL before revoking the cached one
   * makes calls that no sequence of exports makes, so the invariant is lost.
   */
  lemma CreateBeforeRevokeBreaksInv(h: Handle, store: UrlStore, outcomes: seq<Outcome>, blob: Blob)
    requires ExportsInv(Some(h), store, outcomes)
    ensures var r := CreateObjectUrl(store, blob);
            && !ExportsInv(Some(r.1), RevokeObjectUrl(r.0, h), outcomes + [Some(r.1)])
            && (h in store.objects ==> LiveSet(r.0.calls) == {h, r.1} && |LiveSet(r.0.calls)| == 2)
  {
    var r := CreateObjectUrl(store, blob);
    if h in store.objects {
      ExportLogLive(outcomes);
      assert LiveSet(r.0.calls) == {h, r.1};
      assert h != r.1;
    }
    var swapped := RevokeObjectUrl(r.0, h);
    ExportLogExtend(outcomes, Some(r.1));
    assert swapped.calls[|store.calls|] == Created(r.1);
    assert ExportLog(outcomes + [Some(r.1)])[|store.calls|] == Revoked(h);
  }
}
