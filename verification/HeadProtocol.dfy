/**
 * What a listener and the worker do with one notification: the examination of
 * snapshots (`websocket_listener.py`) and one round of `process_document_change`
 * (`sync_engine.py`). A snapshot is named by the document version it encodes, a
 * hash by the body it belongs to; files are kept by the document they mirror.
 */
module HeadProtocol {
  import opened Common
  import Filemeta
  import Mirror = MirrorModel
  import Queue = OperationsQueue
  import Window = TruncationWindow

  type Body = Filemeta.Body
  type Key = Queue.Key
  type Change = Queue.Change

  /** What the resource index tells of a configured document. */
  datatype Entry = Entry(kind: Mirror.FileType, folder: Key, hasPath: bool)

  /** The index, and how many file entries each folder's stored filemeta has. */
  datatype Folders = Folders(entries: map<Key, Entry>, membership: map<Key, nat>)

  /** Heads, hashes, mirrored files and each folder's recent truncations. */
  datatype Stores = Stores(heads: map<Key, nat>, hashes: map<Key, Body>, files: map<Key, Body>,
                           recent: map<Key, seq<real>>)

  function Head(s: Stores, id: Key): Option<nat> { if id in s.heads then Some(s.heads[id]) else None }

  function Recent(s: Stores, folder: Key): seq<real> { if folder in s.recent then s.recent[folder] else [] }

  function Limit(f: Folders, folder: Key): nat {
    Window.MassChangeThreshold(if folder in f.membership then f.membership[folder] else 0)
  }

  /** `_snapshot_needs_processing`: skip, or process with the returned `baseline_only`. */
  function NeedsProcessing(heads: map<Key, nat>, id: Key, snapshot: nat, lastSeen: int, catchup: int): Option<bool> {
    if id in heads && heads[id] == snapshot then None
    else Some(id !in heads && lastSeen <= catchup)
  }

  /**
   * How a round ends: the document is not in the index, its head is this snapshot
   * already, the snapshot is adopted as a baseline, nothing was fetched, the body
   * is the known one, there is no path, the truncation is refused, the write
   * raised, or the body was written.
   */
  datatype Outcome = Unknown | Current | Adopted | Unfetched | Unchanged | NoPath | Gated | Raised | Written

  /** The stores after a round, how it ended, and the truncation it was allowed. */
  datatype Round = Round(stores: Stores, outcome: Outcome, allowed: Option<Window.Allowed>)

  function Recorded(s: Stores, id: Key, c: Change): Stores {
    if c.snapshot.Some? then s.(heads := s.heads[id := c.snapshot.value]) else s
  }

  predicate Empties(s: Stores, id: Key, kind: Mirror.FileType, body: Body) {
    body == Mirror.EmptyBody(kind) && id in s.files && s.files[id] != ""
  }

  /** `handle_document_update`: the gated write of a body that differs from the known one. */
  function Updated(s: Stores, f: Folders, id: Key, e: Entry, body: Body, now: real, disk: bool): Round {
    var limit := Limit(f, e.folder);
    var verdict := Window.Asked(Recent(s, e.folder), now, limit);
    var empties := Empties(s, id, e.kind, body);
    var asked := if empties then s.(recent := s.recent[e.folder := verdict.recent]) else s;
    var allowed := if empties && !verdict.gated then Some(Window.Allowed(now, limit)) else None;
    if !e.hasPath then Round(s, NoPath, None)
    else if empties && verdict.gated then Round(asked, Gated, None)
    else if !disk then Round(asked, Raised, allowed)
    else Round(asked.(files := s.files[id := body]), Written, allowed)
  }

  /** The rounds that record the snapshot they were given. */
  predicate Records(o: Outcome) { o.Adopted? || o.Unchanged? || o.Written? }

  /** How a round ends that does not come to a write; `fetched` is what the fetch returned, if it is reached. */
  function WithoutWrite(s: Stores, f: Folders, id: Key, c: Change, fetched: Option<Body>): Option<Outcome> {
    if id !in f.entries then Some(Unknown)
    else if c.snapshot.Some? && Head(s, id) == c.snapshot then Some(Current)
    else if c.snapshot.Some? && c.baselineOnly == Some(true) then Some(Adopted)
    else if f.entries[id].kind.Binary? || fetched.None? then Some(Unfetched)
    else if id in s.hashes && s.hashes[id] == fetched.value then Some(Unchanged)
    else None
  }

  /** After the write: hash and head are recorded if it succeeded. */
  function Settled(u: Round, id: Key, c: Change, body: Body): Round {
    if u.outcome.Written? then u.(stores := Recorded(u.stores.(hashes := u.stores.hashes[id := body]), id, c)) else u
  }

  /** The document branch of `process_document_change`. */
  function Processed(s: Stores, f: Folders, id: Key, c: Change, fetched: Option<Body>, now: real, disk: bool): Round {
    var ends := WithoutWrite(s, f, id, c, fetched);
    if ends.Some? then Round(if Records(ends.value) then Recorded(s, id, c) else s, ends.value, None)
    else Settled(Updated(s, f, id, f.entries[id], fetched.value, now, disk), id, c, fetched.value)
  }

  class DocumentMirror {
    var heads: map<Key, nat>
    var hashes: map<Key, Body>
    var files: map<Key, Body>
    var recent: map<Key, seq<real>>

    ghost function View(): Stores
      reads this
    {
      Stores(heads, hashes, files, recent)
    }

    constructor (s: Stores)
      ensures View() == s
    {
      heads, hashes, files, recent := s.heads, s.hashes, s.files, s.recent;
    }

    method GatesTruncation(folder: Key, now: real, limit: nat) returns (gated: bool)
      modifies this`recent
      ensures var v := Window.Asked(Recent(old(View()), folder), now, limit);
              gated == v.gated && recent == old(recent)[folder := v.recent]
    {
      var v := Window.Ask(if folder in recent then recent[folder] else [], now, limit);
      recent := recent[folder := v.recent];
      gated := v.gated;
    }

    method HandleDocumentUpdate(f: Folders, id: Key, body: Body, now: real, disk: bool) returns (o: Outcome)
      requires id in f.entries
      modifies this`files, this`recent
      ensures var r := Updated(old(View()), f, id, f.entries[id], body, now, disk);
              View() == r.stores && o == r.outcome
    {
      var e := f.entries[id];
      if !e.hasPath {
        return NoPath;
      }
      if body == Mirror.EmptyBody(e.kind) && id in files && files[id] != "" {
        var gated := GatesTruncation(e.folder, now, Limit(f, e.folder));
        if gated {
          return Gated;
        }
      }
      if !disk {
        return Raised;
      }
      files := files[id := body];
      return Written;
    }

    method ProcessDocumentChange(f: Folders, id: Key, c: Change, fetched: Option<Body>, now: real, disk: bool)
      returns (o: Outcome)
      modifies this`heads, this`hashes, this`files, this`recent
      ensures var r := Processed(old(View()), f, id, c, fetched, now, disk);
              View() == r.stores && o == r.outcome
    {
      if id !in f.entries {
        return Unknown;
      }
      if c.snapshot.Some? {
        if id in heads && heads[id] == c.snapshot.value {
          return Current;
        }
        if c.baselineOnly == Some(true) {
          heads := heads[id := c.snapshot.value];
          return Adopted;
        }
      }
      if f.entries[id].kind.Binary? || fetched.None? {
        return Unfetched;
      }
      if id in hashes && hashes[id] == fetched.value {
        o := Unchanged;
      } else {
        o := HandleDocumentUpdate(f, id, fetched.value, now, disk);
        if !o.Written? {
          return;
        }
        hashes := hashes[id := fetched.value];
      }
      if c.snapshot.Some? {
        heads := heads[id := c.snapshot.value];
      }
    }
  }

  datatype Snapshot = Snapshot(id: Key, version: nat, lastSeen: int)

  /**
   * What one "subdocs" message makes its thread enqueue, when `moments[i]` are the
   * heads as snapshot `i` is examined.
   */
  function Wanted(snapshots: seq<Snapshot>, moments: seq<map<Key, nat>>, catchup: int): seq<(Key, Change)>
    requires |moments| == |snapshots|
  {
    if snapshots == [] then []
    else
      var n := |snapshots| - 1;
      var s := snapshots[n];
      var flag := NeedsProcessing(moments[n], s.id, s.version, s.lastSeen, catchup);
      Wanted(snapshots[..n], moments[..n], catchup)
      + (if flag.None? then [] else [(s.id, Queue.Change(s.lastSeen, Some(s.version), flag))])
  }

  class Listener {
    /** When the listener was made, before the startup sync. */
    const catchupSince: int

    constructor (now: int)
      ensures catchupSince == now
    {
      catchupSince := now;
    }

    /** `_handle_message` on a "subdocs" message; the worker may change the heads between any two examinations. */
    method HandleSubdocs(snapshots: seq<Snapshot>, moments: seq<map<Key, nat>>) returns (sent: seq<(Key, Change)>)
      requires |moments| == |snapshots|
      ensures sent == Wanted(snapshots, moments, catchupSince)
    {
      sent := [];
      for i := 0 to |snapshots|
        invariant sent == Wanted(snapshots[..i], moments[..i], catchupSince)
      {
        var s := snapshots[i];
        assert snapshots[..i + 1][..i] == snapshots[..i] && moments[..i + 1][..i] == moments[..i];
        var baselineOnly := NeedsProcessing(moments[i], s.id, s.version, s.lastSeen, catchupSince);
        if baselineOnly.Some? {
          sent := sent + [(s.id, Queue.Change(s.lastSeen, Some(s.version), baselineOnly))];
        }
      }
      assert snapshots[..|snapshots|] == snapshots && moments[..|snapshots|] == moments;
    }
  }
}
