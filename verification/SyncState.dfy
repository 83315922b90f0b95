/** What has to stay true of a device's bookkeeping while a pass runs, stated on plain values. */
module SyncState {
  import opened Options
  import opened Reconcile
  import ConflictNames

  /** A file the walk still has to handle, described as the vault lists it. */
  datatype Item = Item(path: Path, mtime: int, size: nat)

  /** What a device had to go by when it sent a write: the epoch, how many disk states its pass had gone through,
      and what it had had on disk, in its ledger, on record as naming the wrong plaintext, what it had been
      told nodes hold, and the destinations that had not been free, all by then; and what the entry it went by
      named. */
  datatype Grounds = Grounds(preferLocal: bool, past: nat, seen: set<Content>, held: set<(NodeId, Address)>,
                             carried: set<(NodeId, Address)>, shown: set<(NodeId, Address)>, taken: set<Path>, named: Content)

  /** What an edit names as its base, and the plaintext the ledger's entry named. */
  datatype Base = Base(address: Option<Address>, named: Content)

  /** An accepted write: the base it named, what it put there, when in the history of the server, and why. */
  datatype Put = Put(nodeId: NodeId, base: Option<Address>, address: Address, at: nat, why: Grounds)

  /** What a pass sends to a path: a node the server makes, or the node of the ledger's entry at another path. */
  datatype Sending = Made(node: NodeId) | Sent(from: Path)

  /** One change to the disk of a device: a copy beside its source; server bytes over a path, whose content is
      at `to` by then (where `to` is the path itself, it is nobody's); a source deleted once its content is at
      `to`; a deletion of nobody's content; a rename. `taken` says that a destination was not free. */
  datatype Op =
    | Opening
    | Beside(from: Path, to: Path, taken: bool)
    | Over(path: Path, node: NodeId, address: Address, to: Path)
    | Left(path: Path, to: Path)
    | Gone(path: Path, node: NodeId)
    | Moved(from: Path, to: Path, taken: bool)

  /** A disk state, where each unsynchronised content had got to in it, the destinations that had not been free
      by then, and the change that led to it. */
  datatype Snapshot = Snapshot(disk: map<Path, Content>, trail: map<Path, seq<Path>>, taken: set<Path>, op: Op)

  /** What a pass begins with: the disk and its files in scope, the ledger, the walked tree, the content it
      must not lose, and, of all passes before it, the entries on record as naming the wrong plaintext, what
      was ever on disk, what was ever in the ledger, and how many writes were accepted. */
  datatype Given = Given(
    disk: map<Path, Content>,
    listed: set<Path>,
    ledger: map<Path, Known>,
    walked: map<Path, ServerNode>,
    start: map<Path, Content>,
    carried: set<(NodeId, Address)>,
    seen: set<Content>,
    held: set<(NodeId, Address)>,
    puts: nat)

  /** Everything one pass changes. The fields from `given` on are what it is judged by: the way each
      unsynchronised content has gone (`trail`), every disk state there has been (`past`), the paths nodes
      were shown at or sent to (`told`), what was sent where (`sent`), the addresses the server showed or accepted for them (`shown`), the paths that
      have been on disk or in the ledger (`stood`), the destinations that were not free (`taken`), the
      entries that came to name another plaintext (`carried`), what ever was on disk (`seen`) or in the
      ledger (`held`), and the accepted writes. The last four outlive the pass. `ids` are the nodes of the ledger
      the pass begins with: one the server makes is none of them. */
  datatype State = State(
    disk: map<Path, Content>,
    ledger: map<Path, Known>,
    policy: Policy,
    tree: map<Path, ServerNode>,
    byNodeId: map<NodeId, ServerNode>,
    meta: map<Path, Meta>,
    dedup: map<Content, Address>,
    vanished: map<Content, seq<Vanished>>,
    handled: set<Path>,
    queue: seq<Item>,
    ids: set<NodeId>,
    given: Given,
    trail: map<Path, seq<Path>>,
    past: seq<Snapshot>,
    told: set<(NodeId, Path)>,
    sent: map<Sending, Path>,
    shown: set<(NodeId, Address)>,
    stood: set<Path>,
    taken: set<Path>,
    carried: set<(NodeId, Address)>,
    seen: set<Content>,
    held: set<(NodeId, Address)>,
    puts: seq<Put>)

  /** Who and when, as the names of conflict copies and quarantined files carry it. */
  datatype Stamp = Stamp(device: string, today: string)

  function CopyOf(stamp: Stamp, p: Path): (copy: Path)
    ensures |copy| > |p|
  {
    ConflictNames.ConflictCopyName(p, stamp.device, stamp.today)
  }

  function Quarantined(stamp: Stamp, p: Path): (dest: Path)
    ensures |dest| > |p|
  {
    "_Reset " + stamp.today + "/" + p
  }

  /** Where sync does not reach. */
  predicate InQuarantine(p: Path) {
    "_Reset " <= p
  }

  lemma {:induction false} QuarantinedIsThere(stamp: Stamp, p: Path)
    ensures InQuarantine(Quarantined(stamp, p))
  {
  }

  // ----- where unsynchronised content is ----------------------------------------------------------

  function At(t: seq<Path>): Path
    requires t != []
  {
    t[|t| - 1]
  }

  function Standing(start: map<Path, Content>): map<Path, seq<Path>> {
    map p | p in start :: [p]
  }

  /** `trail[q]` is the way the content that stood at `q` has gone; it is on disk at the end of it. */
  ghost predicate Kept(disk: map<Path, Content>, trail: map<Path, seq<Path>>, start: map<Path, Content>) {
    forall q :: q in trail ==> q in start && trail[q] != [] && At(trail[q]) in disk && disk[At(trail[q])] == start[q]
  }

  /** Nobody's content is at `p`. */
  ghost predicate Nobody(trail: map<Path, seq<Path>>, p: Path) {
    forall q :: q in trail ==> trail[q] != [] && At(trail[q]) != p
  }

  /** Whoever is at `from` moves on to `to`. */
  function Relocated(trail: map<Path, seq<Path>>, from: Path, to: Path): map<Path, seq<Path>> {
    map q | q in trail :: if trail[q] != [] && At(trail[q]) == from then trail[q] + [to] else trail[q]
  }

  /** Whoever is at `a` or `b` is given up. */
  function GivenUp(trail: map<Path, seq<Path>>, a: Path, b: Path): map<Path, seq<Path>> {
    map q | q in trail && trail[q] != [] && At(trail[q]) != a && At(trail[q]) != b :: trail[q]
  }

  // ----- the record of a pass ---------------------------------------------------------------------

  function Last(past: seq<Snapshot>): Snapshot
    requires past != []
  {
    past[|past| - 1]
  }

  predicate Taken(op: Op) {
    (op.Beside? || op.Moved?) && op.taken
  }

  function TakenWith(taken: set<Path>, op: Op): set<Path> {
    if Taken(op) then taken + {op.to} else taken
  }

  /** A path may change when nobody's content is there, or when its content is at `to` as well. */
  ghost predicate Spared(a: Snapshot, path: Path, to: Path) {
    if to == path then Nobody(a.trail, path) else path in a.disk && to in a.disk && a.disk[to] == a.disk[path]
  }

  /** One snapshot and the next differ by exactly the change named, and whoever it moves is followed. Only
      a destination that was not free makes anybody be given up: whoever stood there, and the mover. */
  ghost predicate Follows(opens: Address -> Content, a: Snapshot, b: Snapshot) {
    b.taken == TakenWith(a.taken, b.op) && Changes(opens, a, b)
  }

  ghost predicate Changes(opens: Address -> Content, a: Snapshot, b: Snapshot) {
    match b.op
    case Opening => false
    case Beside(from, to, taken) =>
      && from != to && from in a.disk && b.disk == a.disk[to := a.disk[from]] && (!taken ==> to !in a.disk)
      && b.trail == if taken then GivenUp(a.trail, from, to) else a.trail
    case Over(path, _, address, to) =>
      Spared(a, path, to) && b.disk == a.disk[path := opens(address)] && b.trail == Relocated(a.trail, path, to)
    case Left(path, to) =>
      to != path && Spared(a, path, to) && b.disk == a.disk - {path} && b.trail == Relocated(a.trail, path, to)
    case Gone(path, _) =>
      Nobody(a.trail, path) && b.disk == a.disk - {path} && b.trail == a.trail
    case Moved(from, to, taken) =>
      && from != to && from in a.disk && b.disk == (a.disk - {from})[to := a.disk[from]] && (!taken ==> to !in a.disk)
      && b.trail == if taken then GivenUp(a.trail, from, to) else Relocated(a.trail, from, to)
  }

  /** The node has been at the path: in the ledger the pass began with, on the server, or sent there. */
  ghost predicate Knows(s: State, n: NodeId, p: Path) {
    (p in s.given.ledger && s.given.ledger[p].nodeId == n) || (n, p) in s.told
  }

  /** The ledger had the node at the path: when the pass began, or since something landed there that was not
      free, whose entry it then is. */
  ghost predicate Had(s: State, taken: set<Path>, n: NodeId, p: Path) {
    (p in s.given.ledger && s.given.ledger[p].nodeId == n) || (p in taken && (n, p) in s.told)
  }

  /** Where content may go from a path: its conflict copy, the quarantine, or where the ledger's node is. */
  ghost predicate LeadsTo(stamp: Stamp, s: State, taken: set<Path>, a: Path, b: Path) {
    b == CopyOf(stamp, a) || b == Quarantined(stamp, a) || exists n: NodeId :: Had(s, taken, n, a) && (n, b) in s.told
  }

  /** This device knew the node at the path, and the walk of the server found it nowhere. */
  ghost predicate Absent(s: State, n: NodeId, p: Path) {
    && p in s.given.ledger && s.given.ledger[p].nodeId == n
    && forall t :: t in s.given.walked ==> s.given.walked[t].nodeId != n
  }

  /** What nodes hold, as far as the pass has been told: what the server showed or accepted, and, of a node the
      pass has moved, what the entry moved had recorded. */
  ghost function Stated(s: State): set<(NodeId, Address)> {
    s.shown + set k | k in s.sent && k.Sent? && k.from in s.given.ledger :: (s.given.ledger[k.from].nodeId, s.given.ledger[k.from].address)
  }

  /** What has to be behind a change. Server bytes are those of a node at its own path, and a copy is made of bytes
      that differ from them. Without their content going anywhere, a file listed at the start is overwritten only where the server's copy may be preferred,
      and one is deleted only where absences can be trusted and its node is absent. */
  ghost predicate Warranted(opens: Address -> Content, stamp: Stamp, s: State, before: Snapshot, op: Op) {
    match op
    case Opening => false
    case Beside(from, to, _) => LeadsTo(stamp, s, before.taken, from, to)
    case Moved(from, to, _) => LeadsTo(stamp, s, before.taken, from, to)
    case Over(path, node, address, to) =>
      && (node, path) in s.told && (node, address) in Stated(s)
      && if to == path then s.policy.preferLocal && path in s.given.listed ==> path !in before.disk
            else LeadsTo(stamp, s, before.taken, path, to) && path in before.disk && before.disk[path] != opens(address)
    case Left(path, to) => LeadsTo(stamp, s, before.taken, path, to)
    case Gone(path, node) => s.policy.applyRemoteDeletes && Absent(s, node, path)
  }

  /** The path was in the ledger when the pass began, or on disk in one of its first `n` states. */
  ghost predicate StoodIn(ledger: map<Path, Known>, past: seq<Snapshot>, n: nat, p: Path) {
    p in ledger || exists j :: 0 <= j < n && j < |past| && p in past[j].disk
  }

  ghost predicate SeenIn(past: seq<Snapshot>, c: Content) {
    exists j :: 0 <= j < |past| && c in past[j].disk.Values
  }

  ghost predicate WasTaken(past: seq<Snapshot>, p: Path) {
    exists i :: 0 < i < |past| && Taken(past[i].op) && past[i].op.to == p
  }

  /** A content was at a path in one of the disk states. */
  ghost predicate StoodAt(past: seq<Snapshot>, p: Path, c: Content) {
    exists j :: 0 <= j < |past| && p in past[j].disk && past[j].disk[p] == c
  }

  /** A node neither this device nor the walk of the server knew. */
  ghost predicate Unheard(g: Given, n: NodeId) {
    (forall p :: p in g.ledger ==> g.ledger[p].nodeId != n) && (forall p :: p in g.walked ==> g.walked[p].nodeId != n)
  }

  /** The server took content that was at the path for the node it made. */
  ghost predicate MadeFrom(opens: Address -> Content, s: State, n: NodeId, a: Address, p: Path) {
    (n, a) in s.shown && StoodAt(s.past, p, opens(a))
  }

  /** A node made is new, with what was at its path; one moved is of an entry whose file was not there, to a
      path that held that entry's bytes. */
  ghost predicate RightlySent(opens: Address -> Content, s: State, k: Sending)
    requires k in s.sent
  {
    match k
    case Made(n) => Unheard(s.given, n) && exists a :: MadeFrom(opens, s, n, a, s.sent[k])
    case Sent(from) =>
      from in s.given.ledger && from !in s.given.listed && StoodAt(s.past, s.sent[k], s.given.ledger[from].plainHash)
  }

  ghost predicate AllRightlySent(opens: Address -> Content, s: State) {
    forall k :: k in s.sent ==> RightlySent(opens, s, k)
  }

  /** What a write put on the server was, by then, at a path where the node was. */
  ghost predicate SentFrom(opens: Address -> Content, s: State, put: Put, p: Path) {
    put.why.past <= |s.past| && (put.nodeId, p) in s.told && StoodAt(s.past[..put.why.past], p, opens(put.address))
  }

  /** A write of this pass was sent on what the pass had seen, held, carried and been shown so far. */
  ghost predicate SentOn(opens: Address -> Content, s: State, put: Put) {
    var why := put.why;
    && why.preferLocal == s.policy.preferLocal && why.past <= |s.past|
    && why.held <= s.held && why.carried <= s.carried && why.shown <= Stated(s) && why.taken <= s.taken
    && (forall c :: c in why.seen ==> c in s.given.seen || SeenIn(s.past[..why.past], c))
    && (exists p :: SentFrom(opens, s, put, p))
    && (!why.preferLocal ==> NewsAt(opens, s, put.nodeId, opens(put.address), why))
  }

  /** What is sent is not what the entry it goes by named; unless something had landed, by then, that was not
      free, where the node was. */
  ghost predicate NewsAt(opens: Address -> Content, s: State, n: NodeId, sent: Content, why: Grounds) {
    sent != why.named || exists p :: p in why.taken && Knows(s, n, p)
  }

  ghost predicate InTurn(a: Grounds, b: Grounds) {
    a.past <= b.past && a.held <= b.held && a.carried <= b.carried && a.shown <= b.shown && a.taken <= b.taken
  }

  ghost predicate AllInTurn(opens: Address -> Content, s: State) {
    && s.given.puts <= |s.puts|
    && (forall i :: s.given.puts <= i < |s.puts| ==> SentOn(opens, s, s.puts[i]))
    && (forall i, j :: s.given.puts <= i < j < |s.puts| ==> InTurn(s.puts[i].why, s.puts[j].why))
  }

  /** From what the pass was given to what there is now, one change at a time. */
  ghost predicate Recounted(opens: Address -> Content, s: State) {
    && s.past != [] && s.past[0] == Snapshot(s.given.disk, Standing(s.given.start), {}, Opening)
    && Last(s.past).disk == s.disk && Last(s.past).trail == s.trail && Last(s.past).taken == s.taken
    && forall i :: 0 < i < |s.past| ==> Follows(opens, s.past[i - 1], s.past[i])
  }

  ghost predicate AllWarranted(opens: Address -> Content, stamp: Stamp, s: State) {
    forall i :: 0 < i < |s.past| ==> Warranted(opens, stamp, s, s.past[i - 1], s.past[i].op)
  }

  /** A destination counts as taken only if the path had been on disk or in the ledger, and a content as seen
      only if it was before the pass or has been on disk in it. */
  ghost predicate Witnessed(s: State) {
    && s.disk.Keys <= s.stood
    && (forall p :: p in s.stood ==> StoodIn(s.given.ledger, s.past, |s.past|, p))
    && (forall i :: 0 < i < |s.past| && Taken(s.past[i].op) ==>
          s.past[i].op.to in s.taken && StoodIn(s.given.ledger, s.past, i, s.past[i].op.to))
    && (forall p :: p in s.taken ==> WasTaken(s.past, p))
    && (forall c :: c in s.seen ==> c in s.given.seen || SeenIn(s.past, c))
  }

  ghost predicate Chronicle(opens: Address -> Content, stamp: Stamp, s: State) {
    Recounted(opens, s) && AllWarranted(opens, stamp, s) && Witnessed(s) && AllRightlySent(opens, s) && AllInTurn(opens, s)
  }

  ghost predicate DiskSafe(opens: Address -> Content, stamp: Stamp, s: State) {
    Kept(s.disk, s.trail, s.given.start) && Chronicle(opens, stamp, s)
  }

  // ----- the changes a pass makes -----------------------------------------------------------------

  function Queued(queue: seq<Item>): set<Path> {
    set f | f in queue :: f.path
  }

  /** Nothing of this device's is at a path: no file, no entry, no measurement, no queued work. */
  predicate Free(s: State, p: Path) {
    p !in s.disk && p !in s.ledger && p !in s.meta && p !in Queued(s.queue)
  }

  function Logged(s: State, op: Op): State {
    s.(past := s.past + [Snapshot(s.disk, s.trail, TakenWith(s.taken, op), op)], stood := s.stood + s.disk.Keys,
       taken := TakenWith(s.taken, op))
  }

  /** A content written to a destination beside its source. */
  function Placed(s: State, from: Path, to: Path): State
    requires from in s.disk
  {
    Logged(s.(disk := s.disk[to := s.disk[from]], trail := if Free(s, to) then s.trail else GivenUp(s.trail, from, to)),
           Beside(from, to, !Free(s, to)))
  }

  /** A path overwritten with a node's bytes, its own content, if anybody's, already at `to`. */
  function Replaced(opens: Address -> Content, s: State, path: Path, node: NodeId, address: Address, to: Path): State {
    Logged(s.(disk := s.disk[path := opens(address)], seen := s.seen + {opens(address)}, trail := Relocated(s.trail, path, to)),
           Over(path, node, address, to))
  }

  /** A path deleted whose own content is already at `to`. */
  function Removed(s: State, path: Path, to: Path): State {
    Logged(s.(disk := s.disk - {path}, trail := Relocated(s.trail, path, to)), Left(path, to))
  }

  /** A path deleted with its node. */
  function Deleted(s: State, path: Path, node: NodeId): State {
    Logged(s.(disk := s.disk - {path}), Gone(path, node))
  }

  /** One rename in place. */
  function Renamed(s: State, from: Path, to: Path): State
    requires from in s.disk
  {
    Logged(s.(disk := (s.disk - {from})[to := s.disk[from]],
              trail := if Free(s, to) then Relocated(s.trail, from, to) else GivenUp(s.trail, from, to)),
           Moved(from, to, !Free(s, to)))
  }

  function Recorded(s: State, path: Path, entry: Known): State {
    s.(ledger := s.ledger[path := entry], held := s.held + {(entry.nodeId, entry.address)})
  }

  function Forgotten(s: State, path: Path): State {
    s.(ledger := s.ledger - {path})
  }

  function WithPut(s: State, put: Put): State {
    s.(puts := s.puts + [put])
  }

  /** What the server says a node holds. */
  function Answered(s: State, shown: set<(NodeId, Address)>): State {
    s.(shown := shown)
  }

  /** What the server has accepted for a node. */
  function Taking(s: State, n: NodeId, a: Address): State {
    Answered(s, s.shown + {(n, a)})
  }

  // ----- the ledger -------------------------------------------------------------------------------

  ghost predicate Honest(opens: Address -> Content, seen: set<Content>, k: Known) {
    opens(k.address) == k.plainHash && k.plainHash in seen
  }

  /** Each entry but those at `but` names the plaintext at its address, or is on record as not doing so. */
  ghost predicate LedgerOk(opens: Address -> Content, s: State, but: set<Path>) {
    forall p :: p in s.ledger ==>
      var k := s.ledger[p];
      && (k.nodeId, k.address) in s.held
      && (p in but || Honest(opens, s.seen, k) || (k.nodeId, k.address) in s.carried)
  }

  ghost predicate VanishedOk(opens: Address -> Content, s: State) {
    forall c, v :: c in s.vanished && v in s.vanished[c] ==>
      && (v.nodeId, v.address) in s.held
      && ((opens(v.address) == c && c in s.seen) || (v.nodeId, v.address) in s.carried)
  }

  predicate DedupOk(opens: Address -> Content, dedup: map<Content, Address>) {
    forall c :: c in dedup ==> opens(dedup[c]) == c
  }

  /** What a device has to go by at a moment of a pass. */
  ghost function GroundsOf(s: State, named: Content): Grounds {
    Grounds(s.policy.preferLocal, |s.past|, s.seen, s.held, s.carried, Stated(s), s.taken, named)
  }

  /** Outside the epochs that prefer the local copy, the base of a write is an address this device's ledger
      had held for that very node when it was sent, whose plaintext had been on its disk by then; or one that
      had come along with another plaintext, which was on record for that node and that address; and the entry
      named the plaintext at it, or is so on record. In those epochs it is what the server had said the node
      holds. */
  ghost predicate BaseOk(opens: Address -> Content, why: Grounds, nodeId: NodeId, base: Option<Address>) {
    if why.preferLocal then base.Some? ==> (nodeId, base.value) in why.shown
    else
      && base.Some? && (nodeId, base.value) in why.held
      && ((opens(base.value) == why.named && why.named in why.seen) || (nodeId, base.value) in why.carried)
  }

  ghost predicate PutsOk(opens: Address -> Content, s: State) {
    forall i :: 0 <= i < |s.puts| ==> BaseOk(opens, s.puts[i].why, s.puts[i].nodeId, s.puts[i].base)
  }

  /** The ledger and everything read from it names, beside each address, the plaintext at it. */
  ghost predicate Books(opens: Address -> Content, s: State, but: set<Path>) {
    && LedgerOk(opens, s, but) && VanishedOk(opens, s) && DedupOk(opens, s.dedup) && PutsOk(opens, s)
    && s.disk.Values <= s.seen
  }

  // ----- the tree ---------------------------------------------------------------------------------

  /** Files only, each under its own path, and an index of them by node. */
  ghost predicate TreeOk(tree: map<Path, ServerNode>, byNodeId: map<NodeId, ServerNode>) {
    && (forall p :: p in tree ==>
          var node := tree[p];
          node.path == p && node.isFile && node.address.Some? && node.nodeId in byNodeId && byNodeId[node.nodeId].path == p)
    && (forall n :: n in byNodeId ==>
          var node := byNodeId[n];
          node.nodeId == n && node.isFile && node.address.Some? && node.path in tree && tree[node.path].nodeId == n)
  }

  // ----- what the pass has been told -----------------------------------------------------------------

  ghost predicate Said(s: State, node: ServerNode) {
    (node.nodeId, node.path) in s.told && (node.address.Some? ==> (node.nodeId, node.address.value) in Stated(s))
  }

  /** The pass sent the node to the path. */
  ghost predicate SentTo(s: State, n: NodeId, p: Path) {
    || (Made(n) in s.sent && s.sent[Made(n)] == p)
    || exists v :: Sent(v) in s.sent && s.sent[Sent(v)] == p && v in s.given.ledger && s.given.ledger[v].nodeId == n
  }

  /** Whatever the pass was told of a node and a path, the walk had found or the pass itself sent there: each
      node it made to one place, and each entry's node to one. */
  ghost predicate ToldIsBounded(s: State) {
    forall n: NodeId, p: Path :: (n, p) in s.told ==> (p in s.given.walked && s.given.walked[p].nodeId == n) || SentTo(s, n, p)
  }

  /** Every node and place the pass goes by is one the server showed or the pass itself sent there, and every
      address the ledger came to hold is one the server showed or accepted for that node. */
  ghost predicate Informed(s: State) {
    && s.held <= s.given.held + s.shown
    && (forall p :: p in s.given.ledger ==> s.given.ledger[p].nodeId in s.ids)
    && s.given.held <= s.held && (forall p :: p in s.given.ledger ==> (s.given.ledger[p].nodeId, s.given.ledger[p].address) in s.given.held)
    && (forall p :: p in s.given.walked ==> (s.given.walked[p].nodeId, p) in s.told)
    && ToldIsBounded(s) && (forall k :: k in s.sent && k.Made? ==> (k.node, s.sent[k]) in s.told)
    && (forall p :: p in s.tree ==> Said(s, s.tree[p]))
    && (forall n :: n in s.byNodeId ==> Said(s, s.byNodeId[n]))
    && (forall p :: p in s.ledger ==> Knows(s, s.ledger[p].nodeId, p))
  }

  /** Every path in use has stood, and every file listed is handled or still queued. */
  ghost predicate InUse(s: State) {
    s.ledger.Keys + s.meta.Keys + Queued(s.queue) <= s.stood && s.given.listed <= s.handled + Queued(s.queue)
  }

  // ----- the queue --------------------------------------------------------------------------------

  /** Content whose end of trail is still queued has not been recorded as synchronised, and what was
      measured of it is what it is. */
  ghost predicate Unsynced(s: State) {
    forall q :: q in s.trail ==>
      && q in s.given.start && s.trail[q] != []
      && var p := At(s.trail[q]);
         && (p in s.handled || p in Queued(s.queue) || InQuarantine(p))
         && (p in Queued(s.queue) && p in s.ledger ==> s.ledger[p].plainHash != s.given.start[q])
         && (p in s.meta ==> s.meta[p].plainHash == s.given.start[q])
  }

  /** A path is queued twice only once something has landed there that was not free. */
  ghost predicate NoRepeats(s: State) {
    forall i, j :: 0 <= i < j < |s.queue| && s.queue[i].path == s.queue[j].path ==>
      s.queue[i].path in s.taken && Nobody(s.trail, s.queue[i].path)
  }

  /** Short of that, what is queued there is still what was measured. */
  ghost predicate MetaFresh(s: State) {
    forall p :: p in Queued(s.queue) && p in s.meta && p in s.disk && p !in s.taken ==> s.disk[p] == s.meta[p].plainHash
  }

  /** While every destination has been free, no content has been given up. */
  ghost predicate Clean(s: State) {
    && (s.taken == {} ==> s.trail.Keys == s.given.start.Keys)
    && (forall p :: p in s.meta ==> s.meta[p].plainHash in s.seen)
  }

  ghost predicate QueueSafe(s: State) {
    Unsynced(s) && NoRepeats(s) && MetaFresh(s) && Clean(s)
  }

  /** A path whose turn has come or gone: not on the queue, or on it again with nobody's content there. */
  ghost predicate Off(s: State, p: Path) {
    p in Queued(s.queue) ==> p in s.taken && Nobody(s.trail, p)
  }

  /** The path being handled: off the queue, and measured as whoever is there. */
  ghost predicate Current(s: State, p: Path, m: Meta) {
    && p in s.handled && p in s.stood && Off(s, p) && m.plainHash in s.seen
    && (forall q :: q in s.trail && q in s.given.start && s.trail[q] != [] && At(s.trail[q]) == p ==> m.plainHash == s.given.start[q])
  }

  /** Whatever unsynchronised content is at `p`, the ledger does not have it. */
  ghost predicate Unrecorded(s: State, p: Path) {
    forall q :: q in s.trail && q in s.given.start && s.trail[q] != [] && At(s.trail[q]) == p && p in s.ledger ==>
      s.ledger[p].plainHash != s.given.start[q]
  }

  /** The entry at a path is of the node it was of when the pass began, unless something has landed there that
      was not free. */
  ghost predicate Familiar(s: State, p: Path) {
    p in s.ledger && p !in s.taken ==> p in s.given.ledger && s.given.ledger[p].nodeId == s.ledger[p].nodeId
  }

  /** While the walk lasts, every node it was told of is in the index. */
  ghost predicate AllIndexed(s: State) {
    forall n: NodeId, p: Path :: (n, p) in s.told ==> n in s.byNodeId
  }

  /** What vanished and is not claimed is as the ledger had it when the pass began, and was sent nowhere. */
  ghost predicate Collected(s: State) {
    forall c, v :: c in s.vanished && v in s.vanished[c] ==>
      && v.path in s.given.ledger && s.given.ledger[v.path].nodeId == v.nodeId && s.given.ledger[v.path].address == v.address
      && s.given.ledger[v.path].plainHash == c
      && v.path !in s.given.listed && Sent(v.path) !in s.sent
  }

  /** What was measured is what is there, unless something has landed there that was not free. */
  ghost predicate Fresh(s: State, p: Path, m: Meta) {
    p !in s.taken && p in s.disk ==> s.disk[p] == m.plainHash
  }

  /** A file about to be handled: what is known of its path, its node and its bytes. */
  ghost predicate Ready(s: State, p: Path, m: Meta) {
    AllIndexed(s) && Collected(s) && Unrecorded(s, p) && Familiar(s, p) && Fresh(s, p, m) && StoodAt(s.past, p, m.plainHash)
  }

  ghost predicate Inv(opens: Address -> Content, stamp: Stamp, s: State, but: set<Path>) {
    Books(opens, s, but) && TreeOk(s.tree, s.byNodeId) && Informed(s) && InUse(s) && DiskSafe(opens, stamp, s) && QueueSafe(s)
  }

  // ----- small facts ----------------------------------------------------------------------------------

  lemma {:induction false} ValuesOfUpdate(disk: map<Path, Content>, p: Path, c: Content)
    ensures disk[p := c].Values <= disk.Values + {c}
    ensures (disk - {p}).Values <= disk.Values
  {
  }

  lemma {:induction false} QueuedOneMore(queue: seq<Item>, item: Item)
    ensures Queued(queue + [item]) == Queued(queue) + {item.path}
  {
  }

  // ----- how far the walk still has to go -----------------------------------------------------------

  /** Ledger entries whose path is off the tree. */
  function OffTree(ledger: map<Path, Known>, tree: map<Path, ServerNode>): set<Path> {
    ledger.Keys - tree.Keys
  }

  /** Tree paths at least as long as `p`. */
  function AtLeastAsLong(tree: map<Path, ServerNode>, p: Path): set<Path> {
    set t | t in tree && |t| >= |p|
  }

  function Potential(tree: map<Path, ServerNode>, queue: seq<Item>): nat {
    if queue == [] then 0 else Potential(tree, queue[..|queue| - 1]) + |AtLeastAsLong(tree, queue[|queue| - 1].path)|
  }

  lemma {:induction false} PotentialOfHead(tree: map<Path, ServerNode>, queue: seq<Item>)
    requires queue != []
    ensures Potential(tree, queue) == |AtLeastAsLong(tree, queue[0].path)| + Potential(tree, queue[1..])
    decreases |queue|
  {
    if |queue| == 1 {
      assert queue[..0] == [] == queue[1..];
    } else {
      var init := queue[..|queue| - 1];
      PotentialOfHead(tree, init);
      assert init[1..] == queue[1..][..|queue| - 2];
    }
  }

  lemma {:induction false} SubsetSize<T>(a: set<T>, b: set<T>)
    requires a <= b
    ensures |a| <= |b| && (a != b ==> |a| < |b|)
    decreases |a|
  {
    if a == {} {
      assert a != b ==> exists x :: x in b;
    } else {
      var x :| x in a;
      SubsetSize(a - {x}, b - {x});
      assert a - {x} == b - {x} ==> a == (a - {x}) + {x} == (b - {x}) + {x} == b;
    }
  }

  /** A queued copy of a path on the tree has strictly less of the tree left to collide with. */
  lemma {:induction false} CopyHasLessAhead(tree: map<Path, ServerNode>, p: Path, copy: Path)
    requires p in tree && |copy| > |p|
    ensures |AtLeastAsLong(tree, copy)| < |AtLeastAsLong(tree, p)|
  {
    assert p in AtLeastAsLong(tree, p) && p !in AtLeastAsLong(tree, copy);
    SubsetSize(AtLeastAsLong(tree, copy), AtLeastAsLong(tree, p));
  }
}
