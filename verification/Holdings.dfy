/** Who holds which bytes: nodes, versions, claims, blob rows and files, under uploads, writes, deletions and
    the collector, each transaction one step and any steps of others between any two of its own. */
module Holdings {
  import opened Options

  type User = nat
  type NodeId = nat
  type Address = nat

  datatype Node = Node(owner: User, live: bool, sha: Option<Address>)

  datatype Version = Version(node: NodeId, rev: int, sha: Address)

  /** `user_blobs`: nodes and versions naming the blob, uploads not yet bound, and the oldest of those. */
  datatype Claim = Claim(own: nat, pending: nat, since: int)

  datatype Blob = Blob(size: nat, marked: Option<int>)

  /** An upload whose file is written and whose row is not. */
  datatype Upload = Upload(user: User, address: Address, size: nat)

  // ----- what an account uses -------------------------------------------------------------------------

  /** The bytes of some blobs, each once. */
  ghost function Total(blobs: map<Address, Blob>, some: set<Address>): nat
    requires some <= blobs.Keys
    decreases |some|
  {
    if some == {} then 0
    else
      var a :| a in some;
      blobs[a].size + Total(blobs, some - {a})
  }

  lemma {:induction false} TotalWithout(blobs: map<Address, Blob>, some: set<Address>, a: Address)
    requires some <= blobs.Keys && a in some
    ensures Total(blobs, some) == blobs[a].size + Total(blobs, some - {a})
    decreases |some|
  {
    var b :| b in some && Total(blobs, some) == blobs[b].size + Total(blobs, some - {b});
    if a != b {
      TotalWithout(blobs, some - {b}, a);
      TotalWithout(blobs, some - {a}, b);
      assert some - {a} - {b} == some - {b} - {a};
    }
  }

  lemma {:induction false} TotalOfSameSizes(blobs: map<Address, Blob>, blobs': map<Address, Blob>, some: set<Address>)
    requires some <= blobs.Keys && some <= blobs'.Keys && forall a :: a in some ==> blobs[a].size == blobs'[a].size
    ensures Total(blobs, some) == Total(blobs', some)
    decreases |some|
  {
    if some != {} {
      var a :| a in some;
      TotalWithout(blobs, some, a);
      TotalWithout(blobs', some, a);
      TotalOfSameSizes(blobs, blobs', some - {a});
    }
  }

  function ClaimedBy(claims: map<(User, Address), Claim>, u: User): set<Address> {
    set c | c in claims && c.0 == u :: c.1
  }

  /** `SUM(size)` over an account's claims: the one number both the account page and the intake ask for. */
  ghost function Usage(blobs: map<Address, Blob>, claims: map<(User, Address), Claim>, u: User): nat
    requires forall c :: c in claims ==> c.1 in blobs
  {
    Total(blobs, ClaimedBy(claims, u))
  }

  /** An upload grows its own account's usage by its size, by nothing if the account already held the
      address, and nobody else's ever. */
  lemma {:induction false} UploadGrows(blobs: map<Address, Blob>, claims: map<(User, Address), Claim>, blobs': map<Address, Blob>,
                                       claims': map<(User, Address), Claim>, up: Upload, u: User)
    requires forall c :: c in claims ==> c.1 in blobs
    requires blobs' == if up.address in blobs then blobs else blobs[up.address := Blob(up.size, None)]
    requires claims'.Keys == claims.Keys + {(up.user, up.address)}
    ensures Usage(blobs', claims', u) ==
            Usage(blobs, claims, u) + if u == up.user && (u, up.address) !in claims then blobs'[up.address].size else 0
  {
    var before, after := ClaimedBy(claims, u), ClaimedBy(claims', u);
    forall a ensures a in before <==> (u, a) in claims {
    }
    forall a ensures a in after <==> (u, a) in claims' {
    }
    TotalOfSameSizes(blobs, blobs', before);
    if u == up.user && (u, up.address) !in claims {
      TotalWithout(blobs', after, up.address);
      assert after - {up.address} == before;
    } else {
      assert after == before;
    }
  }

  // ----- what the tables promise each other --------------------------------------------------------------

  /** A live node or a version of this account's names the blob. */
  ghost predicate Named(nodes: map<NodeId, Node>, versions: set<Version>, u: User, a: Address) {
    || (exists n :: n in nodes && nodes[n].owner == u && nodes[n].live && nodes[n].sha == Some(a))
    || (exists v :: v in versions && v.node in nodes && nodes[v.node].owner == u && v.sha == a)
  }

  /** Whoever names a blob by a live node or a version counts it among their own. */
  ghost predicate Claimed(nodes: map<NodeId, Node>, versions: set<Version>, claims: map<(User, Address), Claim>) {
    && (forall n :: n in nodes && nodes[n].live && nodes[n].sha.Some? ==> OwnClaim(claims, nodes[n].owner, nodes[n].sha.value))
    && (forall v :: v in versions ==> v.node in nodes && OwnClaim(claims, nodes[v.node].owner, v.sha))
  }

  predicate OwnClaim(claims: map<(User, Address), Claim>, u: User, a: Address) {
    (u, a) in claims && claims[(u, a)].own > 0
  }

  /** Nothing names a blob that has no row, and no claim claims nothing. */
  ghost predicate Rooted(nodes: map<NodeId, Node>, versions: set<Version>, claims: map<(User, Address), Claim>, blobs: map<Address, Blob>) {
    && (forall n :: n in nodes && nodes[n].sha.Some? ==> nodes[n].sha.value in blobs)
    && (forall v :: v in versions ==> v.sha in blobs)
    && (forall c :: c in claims ==> c.1 in blobs && claims[c].own + claims[c].pending > 0)
  }

  /** What keeps a blob: a claim, a node, trashed ones included, or a version. */
  predicate Referenced(nodes: map<NodeId, Node>, versions: set<Version>, claims: map<(User, Address), Claim>, a: Address) {
    || (exists c :: c in claims && c.1 == a)
    || (exists n :: n in nodes && nodes[n].sha == Some(a))
    || (exists v :: v in versions && v.sha == a)
  }

  /** A reservation, from the oldest of those still pending. */
  function Pended(claims: map<(User, Address), Claim>, u: User, a: Address, now: int): map<(User, Address), Claim> {
    claims[(u, a) := if (u, a) !in claims then Claim(0, 1, now)
                     else var c := claims[(u, a)]; Claim(c.own, c.pending + 1, if c.pending > 0 then c.since else now)]
  }

  /** `bindBlob` settles a reservation; `claimBlob` is content that arrived from somebody else. */
  function Bound(claims: map<(User, Address), Claim>, u: User, a: Address): map<(User, Address), Claim> {
    claims[(u, a) := if (u, a) !in claims then Claim(1, 0, 0)
                     else var c := claims[(u, a)];
                       Claim(c.own + 1, if c.pending > 0 then c.pending - 1 else 0, c.since)]
  }

  function Arrived(claims: map<(User, Address), Claim>, u: User, a: Address): map<(User, Address), Claim> {
    claims[(u, a) := if (u, a) !in claims then Claim(1, 0, 0) else claims[(u, a)].(own := claims[(u, a)].own + 1)]
  }

  /** What the database says it needs: every address a node or a version names. */
  function NamesOf(nodes: map<NodeId, Node>, versions: set<Version>): set<Address> {
    (set n | n in nodes && nodes[n].sha.Some? :: nodes[n].sha.value) + (set v | v in versions :: v.sha)
  }

  // ----- reservations -----------------------------------------------------------------------------------

  /** The uploads of each account recorded and not yet bound or expired, by when they were recorded: a claim
      counts them, and dates itself by the oldest. */
  ghost predicate Reserved(claims: map<(User, Address), Claim>, waiting: map<(User, Address), seq<int>>) {
    && waiting.Keys == claims.Keys
    && forall c :: c in claims ==> |waiting[c]| == claims[c].pending && (waiting[c] != [] ==> claims[c].since == waiting[c][0])
  }

  ghost function WaitingOf(waiting: map<(User, Address), seq<int>>, u: User, a: Address): seq<int> {
    if (u, a) in waiting then waiting[(u, a)] else []
  }

  /** One of the uploads waiting has found its node. */
  ghost function OneFewer(times: seq<int>): seq<int> {
    if times == [] then [] else times[..|times| - 1]
  }

  /** Whatever is reserved later was reserved before, since the same moment and with no fewer bindings; or is of
      now. */
  ghost predicate ReservedSince(before: map<(User, Address), Claim>, after: map<(User, Address), Claim>, now: int) {
    forall c :: c in after && after[c].pending > 0 && after[c].since != now ==>
      c in before && before[c].pending > 0 && before[c].since == after[c].since && before[c].own <= after[c].own
  }

  lemma {:induction false} ReservedSinceTwice(a: map<(User, Address), Claim>, b: map<(User, Address), Claim>, c: map<(User, Address), Claim>, now: int)
    requires ReservedSince(a, b, now) && ReservedSince(b, c, now)
    ensures ReservedSince(a, c, now)
  {
  }

  /** No reservation is older than its time, of all or of those nothing is bound under. */
  ghost predicate NoneStale(claims: map<(User, Address), Claim>, now: int, ttl: nat) {
    forall c :: c in claims && claims[c].pending > 0 ==> claims[c].since >= now - ttl
  }

  ghost predicate NoUnboundStale(claims: map<(User, Address), Claim>, now: int, ttl: nat) {
    forall c :: c in claims && claims[c].pending > 0 && claims[c].own == 0 ==> claims[c].since >= now - ttl
  }

  lemma {:induction false} NoneStaleStill(before: map<(User, Address), Claim>, after: map<(User, Address), Claim>, now: int, ttl: nat)
    requires ReservedSince(before, after, now)
    ensures NoneStale(before, now, ttl) ==> NoneStale(after, now, ttl)
    ensures NoUnboundStale(before, now, ttl) ==> NoUnboundStale(after, now, ttl)
  {
  }

  type Claims = map<(User, Address), Claim>

  lemma {:induction false} PendedIsReserved(claims: Claims, waiting: map<(User, Address), seq<int>>, u: User, a: Address, now: int)
    requires Reserved(claims, waiting)
    ensures Reserved(Pended(claims, u, a, now), waiting[(u, a) := WaitingOf(waiting, u, a) + [now]])
    ensures ReservedSince(claims, Pended(claims, u, a, now), now)
  {
  }

  lemma {:induction false} BoundIsReserved(claims: Claims, waiting: map<(User, Address), seq<int>>, u: User, a: Address)
    requires Reserved(claims, waiting)
    ensures Reserved(Bound(claims, u, a), waiting[(u, a) := OneFewer(WaitingOf(waiting, u, a))])
    ensures forall now :: ReservedSince(claims, Bound(claims, u, a), now)
  {
  }

  lemma {:induction false} ArrivedIsReserved(claims: Claims, waiting: map<(User, Address), seq<int>>, u: User, a: Address)
    requires Reserved(claims, waiting)
    ensures Reserved(Arrived(claims, u, a), waiting[(u, a) := WaitingOf(waiting, u, a)])
    ensures forall now :: ReservedSince(claims, Arrived(claims, u, a), now)
  {
  }

  lemma {:induction false} FewerIsReserved(claims: Claims, claims': Claims, waiting: map<(User, Address), seq<int>>)
    requires Reserved(claims, waiting) && forall c :: c in claims' ==> c in claims && claims'[c] == claims[c]
    ensures claims'.Keys <= waiting.Keys && Reserved(claims', map c | c in claims' :: waiting[c])
    ensures forall now :: ReservedSince(claims, claims', now)
  {
  }

  lemma {:induction false} ClearedIsReserved(claims: Claims, claims': Claims, waiting: map<(User, Address), seq<int>>)
    requires Reserved(claims, waiting) && claims'.Keys == claims.Keys
    requires forall c :: c in claims ==> claims'[c] == claims[c] || claims'[c] == claims[c].(pending := 0)
    ensures claims'.Keys <= waiting.Keys && Reserved(claims', map c | c in claims' :: if claims'[c].pending == 0 then [] else waiting[c])
  {
  }

  /** Stale reservations of blobs that are bound cleared. */
  function Cleared(claims: Claims, now: int, ttl: nat): Claims {
    map c | c in claims :: if claims[c].own > 0 && claims[c].pending > 0 && claims[c].since < now - ttl then claims[c].(pending := 0) else claims[c]
  }

  lemma {:induction false} ClearedKeeps(nodes: map<NodeId, Node>, versions: set<Version>, claims: Claims, blobs: map<Address, Blob>, now: int,
                                        ttl: nat)
    requires Claimed(nodes, versions, claims) && Rooted(nodes, versions, claims, blobs)
    ensures Claimed(nodes, versions, Cleared(claims, now, ttl)) && Rooted(nodes, versions, Cleared(claims, now, ttl), blobs)
    ensures NoUnboundStale(claims, now, ttl) ==> NoneStale(Cleared(claims, now, ttl), now, ttl)
  {
  }

  lemma {:induction false} NamedAreClaimed(nodes: map<NodeId, Node>, versions: set<Version>, claims: Claims)
    requires Claimed(nodes, versions, claims)
    ensures forall u: User, a: Address :: Named(nodes, versions, u, a) ==> (u, a) in claims
  {
  }

  lemma {:induction false} FewerKeeps(nodes: map<NodeId, Node>, versions: set<Version>, claims: Claims, claims': Claims, blobs: map<Address, Blob>)
    requires Claimed(nodes, versions, claims) && Rooted(nodes, versions, claims, blobs)
    requires forall c :: c in claims' ==> c in claims && claims'[c] == claims[c]
    requires forall c :: c in claims && c !in claims' ==> !Named(nodes, versions, c.0, c.1)
    ensures Claimed(nodes, versions, claims') && Rooted(nodes, versions, claims', blobs)
  {
    forall n | n in nodes && nodes[n].live && nodes[n].sha.Some? ensures OwnClaim(claims', nodes[n].owner, nodes[n].sha.value) {
      assert Named(nodes, versions, nodes[n].owner, nodes[n].sha.value);
    }
    forall v | v in versions ensures v.node in nodes && OwnClaim(claims', nodes[v.node].owner, v.sha) {
      assert Named(nodes, versions, nodes[v.node].owner, v.sha);
    }
  }

  lemma {:induction false} FewerAreFresh(before: map<(User, Address), Claim>, after: map<(User, Address), Claim>, now: int, ttl: nat)
    requires NoneStale(before, now, ttl) && forall c :: c in after ==> c in before && after[c] == before[c]
    ensures NoneStale(after, now, ttl)
  {
  }

  // ----- the history of the files -------------------------------------------------------------------------

  /** The part of the two stores a file's fate depends on. */
  datatype Yard = Yard(names: set<Address>, blobs: map<Address, Blob>, files: set<Address>, uploads: multiset<Upload>, orphans: set<Address>)

  datatype Event =
    | Opened
    | Changed
    | Thinned(versions: set<Version>)
    | Emptied
    | Stored(up: Upload)
    | Recorded(up: Upload)
    | Abandoned(up: Upload)
    | Refused(up: Upload)
    | Marked(now: int)
    | Swept(now: int, quarantine: nat)
    | Checked
    | Unlinked(address: Address, ok: bool)

  datatype Entry = Entry(yard: Yard, event: Event)

  /** What each event does to the yard, and that nothing named is ever without its row. */
  ghost predicate Follows(a: Yard, e: Event, b: Yard) {
    && b.names <= b.blobs.Keys
    && match e
       case Opened => false
       case Changed => b == a.(names := b.names)
       case Thinned(_) => b == a.(names := b.names)
       case Emptied => b == a.(names := b.names)
       case Stored(up) => b == a.(files := a.files + {up.address}, uploads := a.uploads + multiset{up})
       case Recorded(up) =>
         && up in a.uploads
         && b == a.(uploads := a.uploads - multiset{up},
                    blobs := if up.address in a.blobs then a.blobs else a.blobs[up.address := Blob(up.size, None)])
       case Abandoned(up) => up in a.uploads && b == a.(uploads := a.uploads - multiset{up})
       case Refused(up) => up in a.uploads && b == a.(uploads := a.uploads - multiset{up}, files := a.files - {up.address})
       case Marked(now) => b == a.(blobs := b.blobs) && b.blobs.Keys == a.blobs.Keys && OnlyMarks(a.blobs, b.blobs, now)
       case Swept(now, quarantine) =>
         b == a.(blobs := a.blobs - b.orphans, orphans := b.orphans) && b.orphans <= Condemned(a.blobs, now, quarantine)
       case Checked => b == a.(orphans := a.orphans - a.blobs.Keys)
       case Unlinked(x, ok) => x in a.orphans && b == a.(orphans := a.orphans - {x}, files := if ok then a.files - {x} else a.files)
  }

  ghost predicate OnlyMarks(before: map<Address, Blob>, after: map<Address, Blob>, now: int)
    requires before.Keys == after.Keys
  {
    forall a :: a in after ==>
      after[a].size == before[a].size && (after[a].marked in {None, before[a].marked} || after[a].marked == Some(now))
  }

  /** Rows marked long enough ago. */
  function Condemned(blobs: map<Address, Blob>, now: int, quarantine: nat): set<Address> {
    set a | a in blobs && blobs[a].marked.Some? && blobs[a].marked.value < now - quarantine
  }

  ghost predicate Chronicle(past: seq<Entry>) {
    && past != [] && past[0] == Entry(Yard({}, map[], {}, multiset{}, {}), Opened)
    && (forall i :: 0 < i < |past| ==> Follows(past[i - 1].yard, past[i].event, past[i].yard))
    && (forall i :: 0 < i < |past| && past[i].event.Unlinked? ==> CheckedBefore(past, i))
  }

  /** The orphans have been checked against the rows since the sweep that made them. */
  ghost predicate CheckedBefore(past: seq<Entry>, i: nat)
    requires i <= |past|
  {
    exists c: nat :: CheckedAt(past, c, i)
  }

  ghost predicate CheckedAt(past: seq<Entry>, c: nat, i: nat)
    requires i <= |past|
  {
    c < i && past[c].event.Checked? && forall k :: c < k < i ==> !past[k].event.Swept?
  }

  /** A row, or an upload about to have one, needs the file. */
  ghost predicate Needed(y: Yard, a: Address) {
    a in y.blobs || exists up :: up in y.uploads && up.address == a
  }

  /** Nothing needed is without its file. */
  ghost predicate Complete(y: Yard) {
    forall a :: Needed(y, a) ==> a in y.files
  }

  /** The event removes the file: an upload of these bytes refused for its size, or a sweep. */
  predicate Removes(e: Event, a: Address) {
    (e.Refused? && e.up.address == a) || (e.Unlinked? && e.ok && e.address == a)
  }

  predicate Uploads(e: Event, a: Address) {
    e.Stored? && e.up.address == a
  }

  /** The file was removed at `j`, and the bytes have not been uploaded again by `i`. */
  ghost predicate RemovedAt(past: seq<Entry>, j: nat, i: nat, a: Address)
    requires i < |past|
  {
    0 < j <= i && Removes(past[j].event, a) && forall k :: j < k <= i ==> !Uploads(past[k].event, a)
  }

  lemma {:induction false} NeededSince(a: Yard, e: Event, b: Yard, x: Address)
    requires Follows(a, e, b) && Needed(b, x) && !Uploads(e, x)
    ensures Needed(a, x)
  {
    if x !in a.blobs {
      if x in b.blobs {
        assert e.Recorded? && e.up.address == x && e.up in a.uploads;
      } else {
        var up :| up in b.uploads && up.address == x;
        assert up in a.uploads;
      }
    }
  }

  lemma {:induction false} FileSince(a: Yard, e: Event, b: Yard, x: Address)
    requires Follows(a, e, b)
    ensures x in b.files <==> Uploads(e, x) || (x in a.files && !Removes(e, x))
  {
  }

  /** At every moment, what a row or an upload needs is without its file exactly when the file was removed, by
      a refused upload of the same bytes or by a sweep, and not uploaded again since. */
  lemma {:induction false} MissingIffRemoved(past: seq<Entry>, i: nat, a: Address)
    requires Chronicle(past) && i < |past| && Needed(past[i].yard, a)
    ensures a !in past[i].yard.files <==> exists j: nat :: RemovedAt(past, j, i, a)
  {
    if j: nat :| RemovedAt(past, j, i, a) {
      RemovedStays(past, j, i, a);
    }
    if a !in past[i].yard.files {
      MissingWasRemoved(past, i, a);
    }
  }

  lemma {:induction false} RemovedStays(past: seq<Entry>, j: nat, i: nat, a: Address)
    requires Chronicle(past) && i < |past| && RemovedAt(past, j, i, a)
    ensures a !in past[i].yard.files
    decreases i
  {
    FileSince(past[i - 1].yard, past[i].event, past[i].yard, a);
    if j < i {
      RemovedStays(past, j, i - 1, a);
    }
  }

  lemma {:induction false} MissingWasRemoved(past: seq<Entry>, i: nat, a: Address)
    requires Chronicle(past) && i < |past| && Needed(past[i].yard, a) && a !in past[i].yard.files
    ensures exists j: nat :: RemovedAt(past, j, i, a)
    decreases i
  {
    if i > 0 {
      FileSince(past[i - 1].yard, past[i].event, past[i].yard, a);
      if a in past[i - 1].yard.files {
        assert RemovedAt(past, i, i, a);
      } else {
        NeededSince(past[i - 1].yard, past[i].event, past[i].yard, a);
        MissingWasRemoved(past, i - 1, a);
        var j: nat :| RemovedAt(past, j, i - 1, a);
        assert RemovedAt(past, j, i, a);
      }
    }
  }

  /** A sweep takes a file from under a row or an upload only when these bytes were being uploaded at its check
      of the orphans, or have been uploaded since. */
  lemma {:induction false} SweptWasUploadedAgain(past: seq<Entry>, j: nat, a: Address)
    requires Chronicle(past) && 0 < j < |past| && past[j].event == Unlinked(a, true) && Needed(past[j].yard, a)
    ensures exists c: nat :: CheckedAt(past, c, j) && UploadedAfter(past, c, j, a)
  {
    var c: nat :| CheckedAt(past, c, j);
    NeededSince(past[j - 1].yard, past[j].event, past[j].yard, a);
    OrphanHasNoRow(past, c, j - 1, a);
  }

  lemma {:induction false} OrphanHasNoRow(past: seq<Entry>, c: nat, i: nat, a: Address)
    requires Chronicle(past) && c <= i < |past| && CheckedAt(past, c, i + 1) && a in past[i].yard.orphans && Needed(past[i].yard, a)
    ensures UploadedAfter(past, c, i + 1, a)
    decreases i
  {
    if i == c {
      assert Follows(past[i - 1].yard, past[i].event, past[i].yard);
      assert a !in past[i].yard.blobs;
    } else if !Uploads(past[i].event, a) {
      NeededSince(past[i - 1].yard, past[i].event, past[i].yard, a);
      assert a in past[i - 1].yard.orphans;
      OrphanHasNoRow(past, c, i - 1, a);
    }
  }

  /** What is without its file later and was not before has had it removed in between. */
  lemma {:induction false} NewlyMissing(past: seq<Entry>, from: nat, i: nat, a: Address)
    requires Chronicle(past) && from <= i < |past| && Needed(past[i].yard, a) && a !in past[i].yard.files
    requires Needed(past[from].yard, a) ==> a in past[from].yard.files
    ensures exists j: nat :: from < j && RemovedAt(past, j, i, a)
  {
    MissingWasRemoved(past, i, a);
    var j: nat :| RemovedAt(past, j, i, a);
    if j <= from {
      assert RemovedAt(past, j, from, a);
      RemovedStays(past, j, from, a);
      NeededAllAlong(past, from, i, a);
    }
  }

  lemma {:induction false} NeededAllAlong(past: seq<Entry>, from: nat, i: nat, a: Address)
    requires Chronicle(past) && from <= i < |past| && Needed(past[i].yard, a)
    requires forall k :: from < k <= i ==> !Uploads(past[k].event, a)
    ensures Needed(past[from].yard, a)
    decreases i
  {
    if from < i {
      NeededSince(past[i - 1].yard, past[i].event, past[i].yard, a);
      NeededAllAlong(past, from, i - 1, a);
    }
  }

  lemma {:induction false} OneMore(past: seq<Entry>, e: Event, y: Yard)
    requires Chronicle(past) && Follows(past[|past| - 1].yard, e, y) && (e.Unlinked? ==> CheckedBefore(past, |past|))
    ensures Chronicle(past + [Entry(y, e)])
    ensures CheckedBefore(past, |past|) && !e.Swept? ==> CheckedBefore(past + [Entry(y, e)], |past| + 1)
    ensures e.Checked? ==> CheckedBefore(past + [Entry(y, e)], |past| + 1)
  {
    var past' := past + [Entry(y, e)];
    forall i | 0 < i < |past'| ensures Follows(past'[i - 1].yard, past'[i].event, past'[i].yard) {
      if i < |past| {
        assert past'[i - 1] == past[i - 1] && past'[i] == past[i];
      }
    }
    forall i | 0 < i < |past'| && past'[i].event.Unlinked? ensures CheckedBefore(past', i) {
      StillChecked(past, past', i, i);
    }
    if CheckedBefore(past, |past|) && !e.Swept? {
      var c: nat :| CheckedAt(past, c, |past|);
      assert CheckedAt(past', c, |past'|);
    }
    if e.Checked? {
      assert CheckedAt(past', |past|, |past'|);
    }
  }

  lemma {:induction false} StillChecked(past: seq<Entry>, past': seq<Entry>, i: nat, n: nat)
    requires past <= past' && i <= |past| && CheckedBefore(past, i)
    ensures CheckedBefore(past', i)
  {
    var c: nat :| CheckedAt(past, c, i);
    assert CheckedAt(past', c, i);
  }

  /** What everybody but the collector's last two transactions does. */
  ghost predicate Theirs(past: seq<Entry>, from: nat) {
    forall k :: from <= k < |past| ==> !past[k].event.Swept? && !past[k].event.Checked? && !past[k].event.Unlinked?
  }

  lemma {:induction false} TheirsTwice(past: seq<Entry>, past': seq<Entry>, from: nat)
    requires Theirs(past, from) && past <= past' && Theirs(past', |past|)
    ensures Theirs(past', from)
  {
    forall k | from <= k < |past'| ensures !past'[k].event.Swept? && !past'[k].event.Checked? && !past'[k].event.Unlinked? {
      if k < |past| {
        assert past'[k] == past[k];
      }
    }
  }

  lemma {:induction false} TheirsStayChecked(past: seq<Entry>, past': seq<Entry>)
    requires past <= past' && Theirs(past', |past|)
    ensures CheckedBefore(past, |past|) ==> CheckedBefore(past', |past'|)
  {
    if c: nat :| CheckedAt(past, c, |past|) {
      forall k | c < k < |past'| ensures !past'[k].event.Swept? {
        if k < |past| {
          assert past'[k] == past[k];
        }
      }
      assert CheckedAt(past', c, |past'|);
    }
  }

  /** How many files sweeps have removed since. */
  ghost function Unlinks(past: seq<Entry>, from: nat): nat
    decreases |past|
  {
    if |past| <= from then 0
    else Unlinks(past[..|past| - 1], from) + if past[|past| - 1].event.Unlinked? && past[|past| - 1].event.ok then 1 else 0
  }

  lemma {:induction false} TheirsUnlinkNothing(past: seq<Entry>, past': seq<Entry>, from: nat)
    requires past <= past' && Theirs(past', |past|)
    ensures Unlinks(past', from) == Unlinks(past, from)
    decreases |past'|
  {
    if |past'| == |past| {
      assert past' == past;
    } else {
      TheirsUnlinkNothing(past, past'[..|past'| - 1], from);
    }
  }

  lemma {:induction false} OneEventMore(past: seq<Entry>, e: Entry, from: nat)
    requires from <= |past|
    ensures Unlinks(past + [e], from) == Unlinks(past, from) + if e.event.Unlinked? && e.event.ok then 1 else 0
  {
    assert (past + [e])[..|past|] == past;
  }

  ghost predicate Uploading(y: Yard, a: Address) {
    exists up :: up in y.uploads && up.address == a
  }

  /** Being uploaded at one moment, or uploaded between it and another. */
  ghost predicate UploadedAfter(past: seq<Entry>, c: nat, j: nat, a: Address)
    requires c < j <= |past|
  {
    Uploading(past[c].yard, a) || exists k :: c < k < j && Uploads(past[k].event, a)
  }

  /** A refused upload of these bytes removed the file; or a sweep did, of bytes being uploaded when it checked
      its orphans against the rows, or uploaded since. */
  ghost predicate TakenAt(past: seq<Entry>, j: nat, a: Address)
    requires j < |past|
  {
    var e := past[j].event;
    || (e.Refused? && e.up.address == a)
    || (e == Unlinked(a, true) && exists c: nat :: CheckedAt(past, c, j) && UploadedAfter(past, c, j, a))
  }

  ghost predicate TakenSince(past: seq<Entry>, from: nat, a: Address) {
    exists j :: from <= j < |past| && TakenAt(past, j, a)
  }

  lemma {:induction false} MissingWasTaken(past: seq<Entry>, past': seq<Entry>)
    requires Chronicle(past) && Chronicle(past') && past <= past'
    ensures forall a :: Needed(past'[|past'| - 1].yard, a) && a !in past'[|past'| - 1].yard.files ==>
              (Needed(past[|past| - 1].yard, a) && a !in past[|past| - 1].yard.files) || TakenSince(past', |past|, a)
  {
    forall a | Needed(past'[|past'| - 1].yard, a) && a !in past'[|past'| - 1].yard.files
               && !(Needed(past[|past| - 1].yard, a) && a !in past[|past| - 1].yard.files)
      ensures TakenSince(past', |past|, a)
    {
      OneWasTaken(past', |past| - 1, a);
    }
  }

  lemma {:induction false} OneWasTaken(past: seq<Entry>, from: nat, a: Address)
    requires Chronicle(past) && from < |past| && Needed(past[|past| - 1].yard, a) && a !in past[|past| - 1].yard.files
    requires Needed(past[from].yard, a) ==> a in past[from].yard.files
    ensures TakenSince(past, from + 1, a)
  {
    NewlyMissing(past, from, |past| - 1, a);
    var j: nat :| from < j && RemovedAt(past, j, |past| - 1, a);
    if past[j].event.Unlinked? {
      NeededAllAlong(past, j, |past| - 1, a);
      SweptWasUploadedAgain(past, j, a);
    }
    assert TakenAt(past, j, a);
  }

  /** A row for an upload and one pending claim more keep what the tables promise. */
  lemma {:induction false} PendingKeeps(nodes: map<NodeId, Node>, versions: set<Version>, claims: map<(User, Address), Claim>,
                                        claims': map<(User, Address), Claim>, blobs: map<Address, Blob>, blobs': map<Address, Blob>,
                                        key: (User, Address))
    requires Claimed(nodes, versions, claims) && Rooted(nodes, versions, claims, blobs)
    requires blobs.Keys <= blobs'.Keys && key.1 in blobs' && claims'.Keys == claims.Keys + {key} && claims'[key].pending > 0
    requires forall c :: c in claims ==> claims'[c].own == claims[c].own && (c != key ==> claims'[c] == claims[c])
    ensures Claimed(nodes, versions, claims') && Rooted(nodes, versions, claims', blobs') && NamesOf(nodes, versions) <= blobs'.Keys
  {
  }

  /** One reference more, by a node and a version, keeps them too. */
  lemma {:induction false} NamingKeeps(nodes: map<NodeId, Node>, versions: set<Version>, claims: map<(User, Address), Claim>,
                                       claims': map<(User, Address), Claim>, blobs: map<Address, Blob>, n: NodeId, owner: User, rev: int, a: Address)
    requires Claimed(nodes, versions, claims) && Rooted(nodes, versions, claims, blobs) && a in blobs
    requires (n in nodes ==> nodes[n].owner == owner) && claims'.Keys == claims.Keys + {(owner, a)} && claims'[(owner, a)].own > 0
    requires forall c :: c in claims && c != (owner, a) ==> claims'[c] == claims[c]
    ensures var nodes', versions' := nodes[n := Node(owner, true, Some(a))], versions + {Version(n, rev, a)};
            Claimed(nodes', versions', claims') && Rooted(nodes', versions', claims', blobs) && NamesOf(nodes', versions') <= blobs.Keys
  {
  }

  lemma {:induction false} PendedKeeps(nodes: map<NodeId, Node>, versions: set<Version>, claims: Claims, blobs: map<Address, Blob>,
                                       blobs': map<Address, Blob>, u: User, a: Address, now: int)
    requires Claimed(nodes, versions, claims) && Rooted(nodes, versions, claims, blobs) && blobs.Keys <= blobs'.Keys && a in blobs'
    ensures Claimed(nodes, versions, Pended(claims, u, a, now)) && Rooted(nodes, versions, Pended(claims, u, a, now), blobs')
    ensures NamesOf(nodes, versions) <= blobs'.Keys
  {
    hide Claimed, Rooted, NamesOf;
    PendingKeeps(nodes, versions, claims, Pended(claims, u, a, now), blobs, blobs', (u, a));
  }

  lemma {:induction false} BoundKeeps(nodes: map<NodeId, Node>, versions: set<Version>, claims: Claims, blobs: map<Address, Blob>,
                                      n: NodeId, owner: User, rev: int, a: Address)
    requires Claimed(nodes, versions, claims) && Rooted(nodes, versions, claims, blobs) && a in blobs
    requires n in nodes ==> nodes[n].owner == owner
    ensures var nodes', versions' := nodes[n := Node(owner, true, Some(a))], versions + {Version(n, rev, a)};
            && Claimed(nodes', versions', Bound(claims, owner, a)) && Rooted(nodes', versions', Bound(claims, owner, a), blobs)
            && NamesOf(nodes', versions') <= blobs.Keys
  {
    hide Claimed, Rooted;
    NamingKeeps(nodes, versions, claims, Bound(claims, owner, a), blobs, n, owner, rev, a);
  }

  lemma {:induction false} ArrivedKeeps(nodes: map<NodeId, Node>, versions: set<Version>, claims: Claims, blobs: map<Address, Blob>,
                                        n: NodeId, owner: User, rev: int, a: Address)
    requires Claimed(nodes, versions, claims) && Rooted(nodes, versions, claims, blobs) && a in blobs
    requires n in nodes ==> nodes[n].owner == owner
    ensures var nodes', versions' := nodes[n := Node(owner, true, Some(a))], versions + {Version(n, rev, a)};
            && Claimed(nodes', versions', Arrived(claims, owner, a)) && Rooted(nodes', versions', Arrived(claims, owner, a), blobs)
            && NamesOf(nodes', versions') <= blobs.Keys
  {
    hide Claimed, Rooted;
    NamingKeeps(nodes, versions, claims, Arrived(claims, owner, a), blobs, n, owner, rev, a);
  }

  class Server {
    var nodes: map<NodeId, Node>
    var versions: set<Version>
    var claims: map<(User, Address), Claim>
    var blobs: map<Address, Blob>
    var files: set<Address>
    var uploads: multiset<Upload>
    /** Addresses whose rows a sweep has deleted and whose files it may still remove. */
    var orphans: set<Address>
    /** Everything that has happened to the files and to what needs them. */
    ghost var past: seq<Entry>
    /** When each account's uploads not yet bound were recorded. */
    ghost var waiting: map<(User, Address), seq<int>>

    constructor ()
      ensures Valid() && past == [Entry(Yard({}, map[], {}, multiset{}, {}), Opened)]
    {
      nodes, versions, claims, blobs := map[], {}, map[], map[];
      files, uploads, orphans := {}, multiset{}, {};
      past, waiting := [Entry(Yard({}, map[], {}, multiset{}, {}), Opened)], map[];
    }

    ghost function Now(): Yard
      reads this
    {
      Yard(NamesOf(nodes, versions), blobs, files, uploads, orphans)
    }

    ghost predicate Valid()
      reads this
    {
      && Claimed(nodes, versions, claims) && Rooted(nodes, versions, claims, blobs) && Reserved(claims, waiting)
      && Chronicle(past) && past[|past| - 1].yard == Now()
    }

    lemma HasBegun()
      requires Valid()
      ensures past != []
    {
    }

    /** What has happened, put on record. */
    ghost method Log(e: Event)
      requires Chronicle(past) && Follows(past[|past| - 1].yard, e, Now()) && (e.Unlinked? ==> CheckedBefore(past, |past|))
      modifies this`past
      ensures Chronicle(past) && past == old(past) + [Entry(Now(), e)]
      ensures old(CheckedBefore(past, |past|)) && !e.Swept? ==> CheckedBefore(past, |past|)
      ensures e.Checked? ==> CheckedBefore(past, |past|)
    {
      OneMore(past, e, Now());
      past := past + [Entry(Now(), e)];
    }

    // ----- uploads --------------------------------------------------------------------------------

    /** `store.put`: the file first. */
    method PutFile(up: Upload)
      requires Valid()
      modifies this`files, this`uploads, this`past
      ensures Valid() && files == old(files) + {up.address} && uploads == old(uploads) + multiset{up}
      ensures past == old(past) + [Entry(Now(), Stored(up))]
    {
      hide Chronicle, CheckedBefore, Claimed, Rooted, Reserved, NamesOf;
      RowsOfNames();
      files := files + {up.address};
      uploads := uploads + multiset{up};
      Log(Stored(up));
    }

    /** An upload whose declared size was not the file's: the file is removed, whoever else's it is. */
    method RefuseSize(up: Upload)
      requires Valid() && up in uploads
      modifies this`files, this`uploads, this`past
      ensures Valid() && files == old(files) - {up.address} && uploads == old(uploads) - multiset{up}
      ensures past == old(past) + [Entry(Now(), Refused(up))]
    {
      hide Chronicle, CheckedBefore, Claimed, Rooted, Reserved, NamesOf;
      RowsOfNames();
      uploads := uploads - multiset{up};
      files := files - {up.address};
      Log(Refused(up));
    }

    /** A connection lost between the file and the row. */
    method Abandon(up: Upload)
      requires Valid() && up in uploads
      modifies this`uploads, this`past
      ensures Valid() && uploads == old(uploads) - multiset{up}
      ensures past == old(past) + [Entry(Now(), Abandoned(up))]
    {
      hide Chronicle, CheckedBefore, Claimed, Rooted, Reserved, NamesOf;
      RowsOfNames();
      uploads := uploads - multiset{up};
      Log(Abandoned(up));
    }

    /** `recordUpload`: the blob's row, if it has none, and a pending claim. */
    method RecordUpload(up: Upload, now: int)
      requires Valid() && up in uploads
      modifies this`uploads, this`blobs, this`claims, this`waiting, this`past
      ensures Valid() && uploads == old(uploads) - multiset{up} && past == old(past) + [Entry(Now(), Recorded(up))]
      ensures blobs == if up.address in old(blobs) then old(blobs) else old(blobs)[up.address := Blob(up.size, None)]
      ensures claims == Pended(old(claims), up.user, up.address, now) && ReservedSince(old(claims), claims, now)
      ensures waiting == old(waiting)[(up.user, up.address) := WaitingOf(old(waiting), up.user, up.address) + [now]]
    {
      hide Chronicle, CheckedBefore, Claimed, Rooted, Reserved, ReservedSince, WaitingOf;
      hide Pended, NamesOf;
      PendedIsReserved(claims, waiting, up.user, up.address, now);
      ghost var claims0, blobs0 := claims, blobs;
      uploads := uploads - multiset{up};
      if up.address !in blobs {
        blobs := blobs[up.address := Blob(up.size, None)];
      }
      claims := Pended(claims, up.user, up.address, now);
      waiting := waiting[(up.user, up.address) := WaitingOf(waiting, up.user, up.address) + [now]];
      PendedKeeps(nodes, versions, claims0, blobs0, blobs, up.user, up.address, now);
      Log(Recorded(up));
    }

    // ----- writes -----------------------------------------------------------------------------------

    /** A node made or its content replaced by its own account: node, version and claim together. An
        address with no row is refused. */
    method Write(n: NodeId, owner: User, rev: int, a: Address) returns (ok: bool)
      requires Valid() && (n in nodes ==> nodes[n].owner == owner)
      modifies this`nodes, this`versions, this`claims, this`waiting, this`past
      ensures Valid() && ok == (a in blobs)
      ensures ok ==> nodes == old(nodes)[n := Node(owner, true, Some(a))] && versions == old(versions) + {Version(n, rev, a)}
                     && claims == Bound(old(claims), owner, a)
                     && waiting == old(waiting)[(owner, a) := OneFewer(WaitingOf(old(waiting), owner, a))]
      ensures !ok ==> nodes == old(nodes) && versions == old(versions) && claims == old(claims) && waiting == old(waiting)
      ensures forall now :: ReservedSince(old(claims), claims, now)
      ensures past == if ok then old(past) + [Entry(Now(), Changed)] else old(past)
    {
      hide Chronicle, CheckedBefore, Claimed, Rooted;
      hide Bound, Reserved, ReservedSince, OneFewer, WaitingOf;
      StillReserved();
      ok := a in blobs;
      if ok {
        BoundIsReserved(claims, waiting, owner, a);
        BoundKeeps(nodes, versions, claims, blobs, n, owner, rev, a);
        nodes := nodes[n := Node(owner, true, Some(a))];
        versions := versions + {Version(n, rev, a)};
        claims := Bound(claims, owner, a);
        waiting := waiting[(owner, a) := OneFewer(WaitingOf(waiting, owner, a))];
        LogChange();
      }
    }

    /** The same content propagated into another account's copy, or an old version restored. */
    method Receive(n: NodeId, owner: User, rev: int, a: Address) returns (ok: bool)
      requires Valid() && (n in nodes ==> nodes[n].owner == owner)
      modifies this`nodes, this`versions, this`claims, this`waiting, this`past
      ensures Valid() && ok == (a in blobs)
      ensures ok ==> nodes == old(nodes)[n := Node(owner, true, Some(a))] && versions == old(versions) + {Version(n, rev, a)}
                     && claims == Arrived(old(claims), owner, a)
                     && waiting == old(waiting)[(owner, a) := WaitingOf(old(waiting), owner, a)]
      ensures !ok ==> nodes == old(nodes) && versions == old(versions) && claims == old(claims) && waiting == old(waiting)
      ensures forall now :: ReservedSince(old(claims), claims, now)
      ensures past == if ok then old(past) + [Entry(Now(), Changed)] else old(past)
    {
      hide Chronicle, CheckedBefore, Claimed, Rooted;
      hide Arrived, Reserved, ReservedSince, WaitingOf;
      StillReserved();
      ok := a in blobs;
      if ok {
        ArrivedIsReserved(claims, waiting, owner, a);
        ArrivedKeeps(nodes, versions, claims, blobs, n, owner, rev, a);
        nodes := nodes[n := Node(owner, true, Some(a))];
        versions := versions + {Version(n, rev, a)};
        claims := Arrived(claims, owner, a);
        waiting := waiting[(owner, a) := WaitingOf(waiting, owner, a)];
        LogChange();
      }
    }

    lemma StillReserved()
      ensures forall now :: ReservedSince(claims, claims, now)
    {
    }

    /** A change to what the database names, put on record. */
    ghost method LogChange()
      requires Claimed(nodes, versions, claims) && Rooted(nodes, versions, claims, blobs) && Reserved(claims, waiting) && Chronicle(past)
      requires past[|past| - 1].yard == Now().(names := past[|past| - 1].yard.names)
      modifies this`past
      ensures Valid() && past == old(past) + [Entry(Now(), Changed)]
      ensures old(CheckedBefore(past, |past|)) ==> CheckedBefore(past, |past|)
    {
      Log(Changed);
    }

    method SoftDelete(n: NodeId)
      requires Valid() && n in nodes
      modifies this`nodes, this`past
      ensures Valid() && nodes == old(nodes)[n := old(nodes)[n].(live := false)] && past == old(past) + [Entry(Now(), Changed)]
    {
      nodes := nodes[n := nodes[n].(live := false)];
      LogChange();
    }

    /** Nodes leave with their versions: the trash emptied, a vault reset. */
    method Purge(doomed: set<NodeId>)
      requires Valid()
      modifies this`nodes, this`versions, this`past
      ensures Valid() && nodes == old(nodes) - doomed && versions == set v | v in old(versions) && v.node !in doomed
      ensures past == old(past) + [Entry(Now(), Changed)]
    {
      nodes := nodes - doomed;
      versions := set v | v in versions && v.node !in doomed;
      LogChange();
    }

    /** Version rows leave: the ladder. */
    method Thin(doomed: set<Version>)
      requires Valid()
      modifies this`versions, this`past
      ensures Valid() && versions == old(versions) - doomed && past == old(past) + [Entry(Now(), Thinned(doomed))]
    {
      versions := versions - doomed;
      RowsOfNames();
      Log(Thinned(doomed));
    }

    // ----- the collector's transactions -------------------------------------------------------------

    /** `removeSpentTrash`: deleted nodes without a version, of those given. */
    method RemoveSpent(candidates: set<NodeId>)
      requires Valid()
      modifies this`nodes, this`past
      ensures Valid() && past == old(past) + [Entry(Now(), Emptied)]
      ensures nodes == old(nodes) - set n | n in candidates && n in old(nodes) && !old(nodes)[n].live && n !in set v | v in versions :: v.node
    {
      var doomed := set n | n in candidates && n in nodes && !nodes[n].live && n !in set v | v in versions :: v.node;
      nodes := nodes - doomed;
      RowsOfNames();
      Log(Emptied);
    }

    /** Uploads never bound, past their time. */
    method DropUnbound(now: int, ttl: nat)
      requires Valid()
      modifies this`claims, this`waiting
      ensures Valid() && NoUnboundStale(claims, now, ttl)
      ensures claims == map c | c in old(claims) && !(old(claims)[c].own == 0 && old(claims)[c].pending > 0 && old(claims)[c].since < now - ttl)
                          :: old(claims)[c]
    {
      hide Chronicle, Reserved, NamesOf;
      ghost var before := claims;
      claims := map c | c in claims && !(claims[c].own == 0 && claims[c].pending > 0 && claims[c].since < now - ttl) :: claims[c];
      FewerIsReserved(before, claims, waiting);
      waiting := map c | c in claims :: waiting[c];
    }

    /** Stale reservations of blobs that are bound. */
    method ClearPending(now: int, ttl: nat)
      requires Valid()
      modifies this`claims, this`waiting
      ensures Valid() && claims.Keys == old(claims).Keys
      ensures NoUnboundStale(old(claims), now, ttl) ==> NoneStale(claims, now, ttl)
      ensures forall c :: c in claims ==>
                claims[c] == var was := old(claims)[c];
                             if was.own > 0 && was.pending > 0 && was.since < now - ttl then was.(pending := 0) else was
    {
      hide Chronicle, Reserved, NamesOf, Claimed, Rooted, NoneStale, NoUnboundStale;
      ghost var before := claims;
      ClearedKeeps(nodes, versions, claims, blobs, now, ttl);
      claims := Cleared(claims, now, ttl);
      ClearedIsReserved(before, claims, waiting);
      waiting := map c | c in claims :: if claims[c].pending == 0 then [] else waiting[c];
    }

    /** `dropUnreferenced` for some accounts, `dropSpentClaims` for all. What those accounts claim is then
        exactly what their live nodes and versions name, and their pending uploads. */
    method DropSpentClaims(whose: set<User>)
      requires Valid()
      modifies this`claims, this`waiting
      ensures Valid() && forall now :: ReservedSince(old(claims), claims, now)
      ensures forall u: User, a: Address :: u in whose ==>
                ((u, a) in claims <==> Named(nodes, versions, u, a) || ((u, a) in old(claims) && old(claims)[(u, a)].pending > 0))
      ensures forall c :: c in claims ==> c in old(claims) && claims[c] == old(claims)[c]
      ensures forall c :: c in old(claims) && c.0 !in whose ==> c in claims
    {
      hide Chronicle, Reserved, ReservedSince, NamesOf, Claimed, Rooted;
      NamedAreClaimed(nodes, versions, claims);
      ghost var before := claims;
      claims := map c | c in claims && !(c.0 in whose && claims[c].pending == 0 && !IsNamed(c.0, c.1)) :: claims[c];
      FewerIsReserved(before, claims, waiting);
      FewerKeeps(nodes, versions, before, claims, blobs);
      waiting := map c | c in claims :: waiting[c];
    }

    predicate IsNamed(u: User, a: Address)
      reads this
      ensures IsNamed(u, a) <==> Named(nodes, versions, u, a)
    {
      || (exists n :: n in nodes && nodes[n].owner == u && nodes[n].live && nodes[n].sha == Some(a))
      || (exists v :: v in versions && v.node in nodes && nodes[v.node].owner == u && v.sha == a)
    }

    /** `markUnreferenced`: quarantine in and out. */
    method Mark(now: int)
      requires Valid()
      modifies this`blobs, this`past
      ensures Valid() && blobs.Keys == old(blobs).Keys && past == old(past) + [Entry(Now(), Marked(now))]
      ensures forall a :: a in blobs ==> blobs[a].size == old(blobs)[a].size
      ensures forall a :: a in blobs ==>
                blobs[a].marked == if Referenced(nodes, versions, claims, a) then None
                                   else if old(blobs)[a].marked.Some? then old(blobs)[a].marked else Some(now)
    {
      hide Chronicle, CheckedBefore, Claimed, Rooted, Reserved, NamesOf;
      ghost var before := blobs;
      RowsOfNames();
      blobs := map a | a in blobs ::
        blobs[a].(marked := if Referenced(nodes, versions, claims, a) then None
                            else if blobs[a].marked.Some? then blobs[a].marked else Some(now));
      SameRows(before);
      Log(Marked(now));
    }

    lemma SameRows(before: map<Address, Blob>)
      requires Rooted(nodes, versions, claims, before) && before.Keys == blobs.Keys
      ensures Rooted(nodes, versions, claims, blobs)
    {
    }

    /** The rows a mark condemned long enough ago and nothing references still. */
    method SweepRows(now: int, quarantine: nat)
      requires Valid()
      modifies this`blobs, this`orphans, this`past
      ensures Valid() && past == old(past) + [Entry(Now(), Swept(now, quarantine))]
      ensures orphans == set a | a in old(blobs) && old(blobs)[a].marked.Some? && old(blobs)[a].marked.value < now - quarantine
                                 && !Referenced(nodes, versions, claims, a)
      ensures blobs == old(blobs) - orphans
    {
      orphans := set a | a in blobs && blobs[a].marked.Some? && blobs[a].marked.value < now - quarantine
                         && !Referenced(nodes, versions, claims, a);
      blobs := blobs - orphans;
      RowsOfNames();
      Log(Swept(now, quarantine));
    }

    lemma RowsOfNames()
      requires Rooted(nodes, versions, claims, blobs)
      ensures NamesOf(nodes, versions) <= blobs.Keys
    {
    }

    /** An address whose row came back keeps its file: every orphan left is without a row, and whatever it was
        that named an address again is not among them. */
    method Recheck()
      requires Valid()
      modifies this`orphans, this`past
      ensures Valid() && orphans <= old(orphans) && orphans !! blobs.Keys
      ensures forall a :: a in old(orphans) && a !in blobs ==> a in orphans
      ensures forall a :: a in orphans ==> !Referenced(nodes, versions, claims, a)
      ensures past == old(past) + [Entry(Now(), Checked)] && CheckedBefore(past, |past|)
    {
      orphans := orphans - blobs.Keys;
      Log(Checked);
    }

    /** One file removed. */
    method Unlink(a: Address) returns (ok: bool)
      requires Valid() && a in orphans && CheckedBefore(past, |past|)
      modifies this`files, this`orphans, this`past
      ensures Valid() && orphans == old(orphans) - {a} && files == if ok then old(files) - {a} else old(files)
      ensures past == old(past) + [Entry(Now(), Unlinked(a, ok))] && CheckedBefore(past, |past|)
    {
      hide Chronicle, CheckedBefore, Claimed, Rooted, Reserved, NamesOf;
      RowsOfNames();
      orphans := orphans - {a};
      ok := *;
      if ok {
        files := files - {a};
      }
      Log(Unlinked(a, ok));
    }

    // ----- a whole sweep ------------------------------------------------------------------------------

    /** One step of anybody else's. */
    method Other(now: int)
      requires Valid()
      modifies this`nodes, this`versions, this`claims, this`waiting, this`blobs, this`files, this`uploads, this`past
      ensures Valid() && old(past) <= past && Theirs(past, |old(past)|) && old(blobs).Keys <= blobs.Keys
      ensures ReservedSince(old(claims), claims, now)
    {
      hide Chronicle, Claimed, Rooted, Reserved, ReservedSince;
      var upload: bool := *;
      if upload {
        OtherUpload(now);
      } else {
        OtherWrite();
      }
    }

    method OtherUpload(now: int)
      requires Valid()
      modifies this`claims, this`waiting, this`blobs, this`files, this`uploads, this`past
      ensures Valid() && old(past) <= past && Theirs(past, |old(past)|) && old(blobs).Keys <= blobs.Keys
      ensures ReservedSince(old(claims), claims, now)
    {
      hide Chronicle, Claimed, Rooted, Pended, Reserved;
      var kind: nat, up: Upload := *, *;
      if kind == 0 {
        PutFile(up);
      } else if kind == 1 && up in uploads {
        RecordUpload(up, now);
      } else if kind == 2 && up in uploads {
        Abandon(up);
      } else if kind == 3 && up in uploads {
        RefuseSize(up);
      }
    }

    method OtherWrite()
      requires Valid()
      modifies this`nodes, this`versions, this`claims, this`waiting, this`past
      ensures Valid() && old(past) <= past && Theirs(past, |old(past)|)
      ensures forall now :: ReservedSince(old(claims), claims, now)
    {
      hide Chronicle, Claimed, Rooted, Bound, Arrived, Reserved;
      var kind: nat, n: NodeId, owner: User, rev: int, a: Address := *, *, *, *, *;
      if kind == 0 && (n in nodes ==> nodes[n].owner == owner) {
        var _ := Write(n, owner, rev, a);
      } else if kind == 1 && (n in nodes ==> nodes[n].owner == owner) {
        var _ := Receive(n, owner, rev, a);
      } else if kind == 2 && n in nodes {
        SoftDelete(n);
      } else if kind == 3 {
        Reset(n, owner);
      }
    }

    /** A node gone for good, and what its account no longer needs. */
    method Reset(n: NodeId, owner: User)
      requires Valid()
      modifies this`nodes, this`versions, this`claims, this`waiting, this`past
      ensures forall a: Address ::
                (owner, a) in claims <==> Named(nodes, versions, owner, a) || ((owner, a) in old(claims) && old(claims)[(owner, a)].pending > 0)
      ensures Valid() && past == old(past) + [Entry(Now(), Changed)]
      ensures forall now :: ReservedSince(old(claims), claims, now)
    {
      Purge({n});
      DropSpentClaims({owner});
    }

    /** Anything of anybody else's: no row of a blob goes, and nothing of the collector's happens. */
    method Others(now: int)
      requires Valid()
      modifies this`nodes, this`versions, this`claims, this`waiting, this`blobs, this`files, this`uploads, this`past
      ensures Valid() && old(past) <= past && Theirs(past, |old(past)|) && old(blobs).Keys <= blobs.Keys
      ensures ReservedSince(old(claims), claims, now)
      ensures old(CheckedBefore(past, |past|)) ==> CheckedBefore(past, |past|)
    {
      hide Chronicle, Claimed, Rooted, CheckedBefore, Reserved;
      var steps: nat := *;
      while steps > 0
        invariant Valid() && old(past) <= past && Theirs(past, |old(past)|) && old(blobs).Keys <= blobs.Keys
        invariant ReservedSince(old(claims), claims, now)
      {
        ghost var before, reserved := past, claims;
        Other(now);
        TheirsTwice(before, past, |old(past)|);
        ReservedSinceTwice(old(claims), reserved, claims, now);
        steps := steps - 1;
      }
      TheirsStayChecked(old(past), past);
    }

    /** The first transactions: history and its empty trash, then the reservations past their time, of which
        none is left. */
    method AgeOut(now: int, ttl: nat, thinned: set<Version>)
      requires Valid()
      modifies this`nodes, this`versions, this`claims, this`waiting, this`blobs, this`files, this`uploads, this`past
      ensures Valid() && old(past) <= past && Theirs(past, |old(past)|) && |past| > |old(past)| + 1
      ensures past[|old(past)|].event == Thinned(thinned) && past[|old(past)| + 1].event == Emptied && NoneStale(claims, now, ttl)
    {
      hide Chronicle, Claimed, Rooted, CheckedBefore, Reserved, ReservedSince, NoneStale, NoUnboundStale;
      ghost var from := |past|;
      Thin(thinned);
      RemoveSpent(nodes.Keys);
      ghost var past1 := past;
      Others(now);
      TheirsTwice(past1, past, from);
      DropUnbound(now, ttl);
      ghost var past2, claims2 := past, claims;
      Others(now);
      TheirsTwice(past2, past, from);
      NoneStaleStill(claims2, claims, now, ttl);
      ClearPending(now, ttl);
    }

    /** The transaction that settles every account: claims are exactly what live nodes and versions name and
        what is pending, and exactly what nothing keeps is in quarantine. */
    method Settle(now: int)
      requires Valid()
      modifies this`claims, this`waiting, this`blobs, this`past
      ensures Valid() && past == old(past) + [Entry(Now(), Marked(now))]
      ensures forall c :: c in claims ==> c in old(claims) && claims[c] == old(claims)[c]
      ensures forall u: User, a: Address ::
                (u, a) in claims <==> Named(nodes, versions, u, a) || ((u, a) in claims && claims[(u, a)].pending > 0)
      ensures forall a :: a in blobs ==> (blobs[a].marked.Some? <==> !Referenced(nodes, versions, claims, a))
    {
      hide Chronicle, Rooted;
      var users := set c | c in claims :: c.0;
      ghost var before := claims;
      DropSpentClaims(users);
      forall u: User, a: Address ensures (u, a) in claims <==> Named(nodes, versions, u, a) || ((u, a) in claims && claims[(u, a)].pending > 0) {
        if Named(nodes, versions, u, a) {
          NamedIsClaimed(u, a);
        }
        if (u, a) in claims {
          assert (u, a) in before && u in users;
        }
      }
      Mark(now);
    }

    lemma NamedIsClaimed(u: User, a: Address)
      requires Valid() && Named(nodes, versions, u, a)
      ensures OwnClaim(claims, u, a)
    {
    }

    lemma UnlinksSince(before: seq<Entry>, after: seq<Entry>)
      requires before <= after && Theirs(after, |before|)
      ensures Unlinks(after, |before|) == 0
    {
      TheirsUnlinkNothing(before, after, |before|);
      NothingSince(before);
    }

    lemma UnlinksFrom(middle: seq<Entry>, after: seq<Entry>, from: nat)
      requires middle <= after && from <= |middle|
      ensures Unlinks(after, from) == Unlinks(middle, from) + Unlinks(after, |middle|)
      decreases |after|
    {
      if |after| == |middle| {
        assert after == middle;
      } else {
        UnlinksFrom(middle, after[..|after| - 1], from);
      }
    }

    lemma NothingSince(past: seq<Entry>)
      ensures Unlinks(past, |past|) == 0
    {
    }

    /** The last: condemned rows, then the files of those nothing has brought back. */
    method RemoveFiles(now: int, quarantine: nat) returns (removed: nat)
      requires Valid()
      modifies this
      ensures Valid() && old(past) < past && past[|old(past)|].event == Swept(now, quarantine) && orphans == {}
      ensures ReservedSince(old(claims), claims, now) && Unlinks(past, |old(past)|) == removed
    {
      hide Chronicle, Claimed, Rooted, CheckedBefore, Theirs, Referenced, Reserved, ReservedSince, Unlinks;
      ghost var from := |past|;
      NothingSince(past);
      SweepRows(now, quarantine);
      assert past[|old(past)|].event == Swept(now, quarantine);
      OneEventMore(past[..from], past[from], from);
      assert past == past[..from] + [past[from]];
      ghost var past1 := past;
      Others(now);
      TheirsUnlinkNothing(past1, past, from);
      ghost var past2 := past;
      Recheck();
      OneEventMore(past2, past[|past2|], from);
      removed := 0;
      while orphans != {}
        invariant Valid() && old(past) < past && past[|old(past)|].event == Swept(now, quarantine) && CheckedBefore(past, |past|)
        invariant ReservedSince(old(claims), claims, now) && Unlinks(past, from) == removed
        decreases |orphans|
      {
        ghost var reserved, before := claims, past;
        Others(now);
        ReservedSinceTwice(old(claims), reserved, claims, now);
        TheirsUnlinkNothing(before, past, from);
        before := past;
        var a :| a in orphans;
        var ok := Unlink(a);
        OneEventMore(before, past[|before|], from);
        removed := if ok then removed + 1 else removed;
      }
    }

    /** Everything before the rows go: what is old, and then what nothing keeps. */
    method AgeAndMark(now: int, ttl: nat, thinned: set<Version>) returns (ghost k: nat)
      requires Valid()
      modifies this
      ensures Valid() && old(past) <= past && Theirs(past, |old(past)|) && |old(past)| + 1 < k < |past| && past[k].event == Marked(now)
      ensures past[|old(past)|].event == Thinned(thinned) && past[|old(past)| + 1].event == Emptied && NoneStale(claims, now, ttl)
    {
      hide Chronicle, Claimed, Rooted, CheckedBefore, Named, Reserved, ReservedSince, NoneStale;
      AgeOut(now, ttl, thinned);
      ghost var claims1 := claims;
      Others(now);
      NoneStaleStill(claims1, claims, now, ttl);
      ghost var claims2 := claims;
      k := |past|;
      Settle(now);
      FewerAreFresh(claims2, claims, now, ttl);
      assert past[k].event == Marked(now);
      ghost var claims3 := claims;
      Others(now);
      NoneStaleStill(claims3, claims, now, ttl);
    }

    /** `sweep`: the transactions in their order, anything of anybody else's between any two, and the files
        last, after the commit that removed their rows. What is needed and without its file afterwards was so
        before, or the file was removed meanwhile: under a refused upload of the same bytes, or, by the sweep
        itself, from under bytes being uploaded or uploaded again since its check of the rows. No reservation
        older than its time is left. */
    method Sweep(now: int, ttl: nat, quarantine: nat, thinned: set<Version>) returns (removed: nat)
      requires Valid()
      modifies this
      ensures Valid() && old(past) <= past && orphans == {} && removed == Unlinks(past, |old(past)|)
      ensures |past| > |old(past)| + 1 && past[|old(past)|].event == Thinned(thinned) && past[|old(past)| + 1].event == Emptied
      ensures exists k, l :: |old(past)| + 1 < k < l < |past| && past[k].event == Marked(now) && past[l].event == Swept(now, quarantine)
      ensures NoneStale(claims, now, ttl)
      ensures forall a :: Needed(Now(), a) && a !in files ==>
                (Needed(old(Now()), a) && a !in old(files)) || TakenSince(past, |old(past)|, a)
    {
      hide Chronicle, Claimed, Rooted, CheckedBefore, Theirs, Named, Needed, TakenSince, Reserved, ReservedSince, NoneStale, Unlinks;
      ghost var k := AgeAndMark(now, ttl, thinned);
      ghost var l, claims4 := |past|, claims;
      UnlinksSince(old(past), past);
      ghost var marked := past;
      removed := RemoveFiles(now, quarantine);
      UnlinksFrom(marked, past, |old(past)|);
      NoneStaleStill(claims4, claims, now, ttl);
      assert past[k].event == Marked(now) && past[l].event == Swept(now, quarantine);
      MissingWasTaken(old(past), past);
    }

    // ----- quota ----------------------------------------------------------------------------------------

    /** Right after a pass has dropped the spent claims, the sum is a recount of what the account's live nodes
        and versions name and of its pending uploads. */
    lemma {:induction false} UsageIsRecount(u: User, named: set<Address>, pending: set<Address>)
      requires Valid()
      requires forall a :: a in named <==> Named(nodes, versions, u, a)
      requires forall a :: a in pending <==> (u, a) in claims && claims[(u, a)].pending > 0
      requires forall a :: (u, a) in claims <==> Named(nodes, versions, u, a) || a in pending
      ensures named + pending <= blobs.Keys && Usage(blobs, claims, u) == Total(blobs, named + pending)
    {
      var mine := ClaimedBy(claims, u);
      forall a | a in named + pending ensures a in mine {
        assert (u, a) in claims;
      }
      assert mine == named + pending;
    }
  }
}
