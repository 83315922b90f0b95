/** What should happen to one local file: decided, not done. */
module Reconcile {
  import opened Options

  type Path = string
  type NodeId = nat
  type Address = nat

  /** A plaintext, known by its hash; two plaintexts with one hash are one plaintext. */
  type Content = nat

  datatype Hint = Hint(mtime: int, size: nat)

  /** What this device recorded when it last synchronised a path. */
  datatype Known = Known(nodeId: NodeId, rev: int, plainHash: Content, address: Address, hint: Option<Hint>)

  /** A node of the walked tree; a folder has no address. */
  datatype ServerNode = ServerNode(nodeId: NodeId, path: Path, rev: int, address: Option<Address>, isFile: bool)

  /** What this device measured about a file. In one scope, a dedup tag stands for its plaintext. */
  datatype Meta = Meta(plainHash: Content, mtime: int, size: nat)

  datatype Vanished = Vanished(path: Path, nodeId: NodeId, rev: int, address: Address)

  datatype Policy = Policy(pushDeletes: bool, applyRemoteDeletes: bool, preferLocal: bool)

  datatype Situation = Situation(
    meta: Meta,
    known: Option<Known>,
    onServer: Option<ServerNode>,
    byNodeId: map<NodeId, ServerNode>,
    dedup: map<Content, Address>,
    vanished: map<Content, seq<Vanished>>,
    tree: map<Path, ServerNode>,
    policy: Policy)

  datatype Decision =
    | Nothing
    | RefreshHint
    | Pull(node: ServerNode)
    | PushEdit(known: Known, onServer: ServerNode)
    | Adopt(onServer: ServerNode)
    | Conflict(onServer: ServerNode)
    | RemoteRename(known: Known, movedTo: ServerNode)
    | RemoveLocal
    | PushMove(source: Vanished)
    | PushNew

  function Get<K, V>(m: map<K, V>, k: K): Option<V> {
    if k in m then Some(m[k]) else None
  }

  const RENAME_MIN_BYTES := 512

  /** `renameSourceFor`. */
  function RenameSourceFor(meta: Meta, vanished: map<Content, seq<Vanished>>, tree: map<Path, ServerNode>,
                           byNodeId: map<NodeId, ServerNode>): Option<Vanished> {
    if meta.size < RENAME_MIN_BYTES then None
    else if meta.plainHash !in vanished || |vanished[meta.plainHash]| != 1 then None
    else
      var source := vanished[meta.plainHash][0];
      var stillThere := source.path in tree && tree[source.path].nodeId == source.nodeId;
      if !stillThere && source.nodeId !in byNodeId then None else Some(source)
  }

  /** `decide`. */
  function Decide(s: Situation): Decision {
    if s.onServer.Some? && s.known.Some? && s.known.value.nodeId == s.onServer.value.nodeId then
      var known, onServer := s.known.value, s.onServer.value;
      var localChanged := known.plainHash != s.meta.plainHash;
      var remoteChanged := Some(known.address) != onServer.address;
      if !localChanged && !remoteChanged then
        if known.hint != Some(Hint(s.meta.mtime, s.meta.size)) then RefreshHint else Nothing
      else if !localChanged && remoteChanged && !s.policy.preferLocal then Pull(onServer)
      else PushEdit(known, onServer)
    else if s.onServer.Some? then
      var onServer := s.onServer.value;
      if Get(s.dedup, s.meta.plainHash) == onServer.address then Adopt(onServer)
      else Conflict(onServer)
    else if s.known.Some? then
      var known := s.known.value;
      if known.nodeId in s.byNodeId then RemoteRename(known, s.byNodeId[known.nodeId])
      else if s.policy.applyRemoteDeletes && known.plainHash == s.meta.plainHash then RemoveLocal
      else PushNew
    else
      match RenameSourceFor(s.meta, s.vanished, s.tree, s.byNodeId)
      case Some(source) => PushMove(source)
      case None => PushNew
  }

  datatype Epoch = Continuous | JournalTtl | Restore | Unverifiable | Reset

  /** `POLICY`. */
  function PolicyOf(e: Epoch): Policy {
    match e
    case Continuous => Policy(true, true, false)
    case JournalTtl => Policy(true, true, false)
    case Restore => Policy(false, false, true)
    case Unverifiable => Policy(false, false, true)
    case Reset => Policy(false, false, true)
  }

  // ----- when each answer is given --------------------------------------------------------------------

  /** The ledger's node is at this path on the server; another node is; it is at another path; it is nowhere;
      or neither side knows the path. */
  predicate Here(s: Situation) {
    s.known.Some? && s.onServer.Some? && s.known.value.nodeId == s.onServer.value.nodeId
  }

  predicate Another(s: Situation) {
    s.onServer.Some? && (s.known.None? || s.known.value.nodeId != s.onServer.value.nodeId)
  }

  predicate Elsewhere(s: Situation) {
    s.onServer.None? && s.known.Some? && s.known.value.nodeId in s.byNodeId
  }

  predicate Nowhere(s: Situation) {
    s.onServer.None? && s.known.Some? && s.known.value.nodeId !in s.byNodeId
  }

  predicate Unknown(s: Situation) {
    s.onServer.None? && s.known.None?
  }

  /** The bytes are not those the ledger names. */
  predicate Edited(s: Situation) {
    s.known.Some? && s.known.value.plainHash != s.meta.plainHash
  }

  /** The server's head is not the address the ledger names. */
  predicate HeadMoved(s: Situation) {
    s.known.Some? && s.onServer.Some? && s.onServer.value.address != Some(s.known.value.address)
  }

  /** In these epochs the server's word about an absence or a change can be trusted. */
  predicate Trusted(e: Epoch) {
    e == Continuous || e == JournalTtl
  }

  /** These very bytes, enough of them to be told apart, are those of one path gone from here, whose node lives. */
  ghost predicate MovedFrom(s: Situation, source: Vanished) {
    && s.meta.size >= 512 && s.meta.plainHash in s.vanished && s.vanished[s.meta.plainHash] == [source]
    && (source.nodeId in s.byNodeId || (source.path in s.tree && s.tree[source.path].nodeId == source.nodeId))
  }

  /** A node this device knows, at its own path: exactly when its bytes come down and when its own go up. */
  lemma WhenTheNodeIsHere(s: Situation, e: Epoch)
    requires s.policy == PolicyOf(e) && Here(s)
    ensures Decide(s) == Pull(s.onServer.value) <==> !Edited(s) && HeadMoved(s) && Trusted(e)
    ensures Decide(s) == PushEdit(s.known.value, s.onServer.value) <==> Edited(s) || (HeadMoved(s) && !Trusted(e))
    ensures Decide(s) == RefreshHint <==>
              !Edited(s) && !HeadMoved(s) && s.known.value.hint != Some(Hint(s.meta.mtime, s.meta.size))
    ensures Decide(s) == Nothing <==>
              !Edited(s) && !HeadMoved(s) && s.known.value.hint == Some(Hint(s.meta.mtime, s.meta.size))
  {
  }

  /** And nowhere else is any of those the answer, nor any of these where the node is here. */
  lemma WhichAnswers(s: Situation)
    ensures Here(s) <==> Decide(s).Pull? || Decide(s).PushEdit? || Decide(s).RefreshHint? || Decide(s).Nothing?
    ensures Another(s) <==> Decide(s).Adopt? || Decide(s).Conflict?
    ensures Elsewhere(s) || Nowhere(s) || Unknown(s) <==>
              Decide(s).RemoteRename? || Decide(s).RemoveLocal? || Decide(s).PushMove? || Decide(s).PushNew?
  {
  }

  /** Another node at the path: bound to where the server has these bytes, and stood beside otherwise. */
  lemma WhenAnotherIsHere(s: Situation)
    requires Another(s)
    ensures Decide(s) == Adopt(s.onServer.value) <==> Get(s.dedup, s.meta.plainHash) == s.onServer.value.address
    ensures Decide(s) == Conflict(s.onServer.value) <==> Get(s.dedup, s.meta.plainHash) != s.onServer.value.address
  {
  }

  /** Nothing at the path: a file follows the node it was known as, goes with it where its absence is to be
      trusted and the bytes are synchronised, is moved where it is one that vanished, and is uploaded otherwise. */
  lemma WhenNothingIsHere(s: Situation, e: Epoch)
    requires s.policy == PolicyOf(e) && s.onServer.None?
    ensures Elsewhere(s) ==> Decide(s) == RemoteRename(s.known.value, s.byNodeId[s.known.value.nodeId])
    ensures Decide(s).RemoteRename? ==> Elsewhere(s)
    ensures Decide(s) == RemoveLocal <==> Nowhere(s) && !Edited(s) && Trusted(e)
    ensures forall source :: Decide(s) == PushMove(source) <==> Unknown(s) && MovedFrom(s, source)
    ensures Decide(s) == PushNew <==>
              (Nowhere(s) && (Edited(s) || !Trusted(e))) || (Unknown(s) && !exists source :: MovedFrom(s, source))
  {
    if Unknown(s) && s.meta.plainHash in s.vanished && |s.vanished[s.meta.plainHash]| == 1 {
      var source := s.vanished[s.meta.plainHash][0];
      assert s.vanished[s.meta.plainHash] == [source];
      assert MovedFrom(s, source) <==> RenameSourceFor(s.meta, s.vanished, s.tree, s.byNodeId) == Some(source);
    }
  }

  /** What each epoch makes of an absence. */
  lemma WhatEpochsTrust(e: Epoch)
    ensures PolicyOf(e).pushDeletes == PolicyOf(e).applyRemoteDeletes == Trusted(e) == !PolicyOf(e).preferLocal
  {
  }

  predicate Destructive(d: Decision) {
    d.Pull? || d.RemoveLocal?
  }

  /** The two answers that give up local bytes are given exactly for bytes this device had synchronised, and
      only in an epoch in which the server's word about an absence or a change can be trusted. */
  lemma DestructiveOnlyWhenClean(s: Situation, e: Epoch)
    requires s.policy == PolicyOf(e)
    ensures Destructive(Decide(s)) <==>
              s.known.Some? && !Edited(s) && Trusted(e) && ((Here(s) && HeadMoved(s)) || Nowhere(s))
    ensures Destructive(Decide(s)) ==>
              && s.known.Some? && s.known.value.plainHash == s.meta.plainHash
              && (e == Continuous || e == JournalTtl)
              && (Decide(s).Pull? ==> Some(s.known.value.address) != s.onServer.value.address)
              && (Decide(s).RemoveLocal? ==> s.onServer.None? && s.known.value.nodeId !in s.byNodeId)
  {
  }

  /** Nothing is sent or fetched for a path exactly when both sides already agree: the node this device
      knows with neither side moved, or a node it does not know whose bytes are these. */
  lemma SettledIffBothSidesAgree(s: Situation)
    ensures (Decide(s).Nothing? || Decide(s).RefreshHint? || Decide(s).Adopt?) <==>
            && s.onServer.Some?
            && (if s.known.Some? && s.known.value.nodeId == s.onServer.value.nodeId
                then s.known.value.plainHash == s.meta.plainHash && Some(s.known.value.address) == s.onServer.value.address
                else Get(s.dedup, s.meta.plainHash) == s.onServer.value.address)
  {
  }

  /** A move is claimed only for the one vanished path with exactly these bytes, for a file large enough
      to be told apart, whose node still lives. */
  lemma MoveOnlyWithEvidence(s: Situation)
    requires Decide(s).PushMove?
    ensures var source := Decide(s).source;
            && s.known.None? && s.onServer.None? && s.meta.size >= RENAME_MIN_BYTES
            && Get(s.vanished, s.meta.plainHash) == Some([source])
            && (source.nodeId in s.byNodeId || exists p :: p in s.tree && s.tree[p].nodeId == source.nodeId)
  {
    var source := Decide(s).source;
    assert s.vanished[s.meta.plainHash] == [source];
    assert source.nodeId !in s.byNodeId ==> source.path in s.tree;
  }
}
