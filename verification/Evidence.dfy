/** The audited evidence store: the node and relationship methods of app/career/repository.py. */
module Evidence {
  import opened Base

  type Key = string
  type Actor = string

  datatype Verification = Verified | Unverified | NeedsReview | Inferred | Conflict

  datatype Content = Content(kind: string, title: string, claim: string, attributes: string, confidence: int,
    sourceType: string, sourceRef: string, artifactRef: string)

  /** A row of evidence_nodes without its source hash: what `node_snapshot` records. */
  datatype Node = Node(
    content: Content, status: Verification, forResume: bool, forApplication: bool,
    verifiedBy: Option<Actor>, verifiedAt: Option<int>, active: bool, order: int, version: nat)

  datatype NodeRow = NodeRow(node: Node, hash: Option<string>)

  datatype Link = Link(from: Key, to: Key, relation: string)

  datatype Action = Created | Updated | Removed | Restored

  datatype Entry =
    | NodeEntry(key: Key, action: Action, actor: Actor, before: Option<Node>, after: Node)
    | LinkEntry(link: Link, position: int)
    | ProfileEntry(was: Option<ProfileRow>, becomes: ProfileRow)

  datatype ProfileRow = ProfileRow(fields: map<string, string>, preferences: string, hash: Option<string>, version: nat)

  datatype Store = Store(nodes: map<Key, NodeRow>, links: map<Link, int>, log: seq<Entry>, profile: Option<ProfileRow>)

  /** Extraction is not verification. */
  const UNTRUSTED_SOURCE_TYPES: set<string> := {"INFERRED", "LLM_EXTRACTED"}

  // ------------------------------------------------------------------- rules

  /** `check_truth_rules`. */
  predicate Truthful(status: Verification, forResume: bool, forApplication: bool) {
    && !(status.Conflict? && (forResume || forApplication))
    && !(status.Inferred? && (forResume || forApplication))
    && !(!status.Verified? && forApplication)
  }

  datatype NodeData = NodeData(content: Content, status: Verification, forResume: Option<bool>,
    forApplication: Option<bool>, order: int)

  function Or<T>(a: Option<T>, b: T): T {
    if a.Some? then a.value else b
  }

  function Record(s: Store, key: Key, row: NodeRow, action: Action, actor: Actor, before: Option<Node>): Store {
    s.(nodes := s.nodes[key := row], log := s.log + [NodeEntry(key, action, actor, before, row.node)])
  }

  /** `create_node`; None when it raises. */
  function Create(s: Store, key: Key, d: NodeData, actor: Actor, hash: Option<string>, now: int): Option<Store> {
    var verified := d.status.Verified?;
    var forResume, forApplication := Or(d.forResume, verified), Or(d.forApplication, verified);
    if key in s.nodes || (d.content.sourceType in UNTRUSTED_SOURCE_TYPES && verified)
      || !Truthful(d.status, forResume, forApplication) then None
    else
      var node := Node(d.content, d.status, forResume, forApplication, if verified then Some(actor) else None,
                       if verified then Some(now) else None, true, d.order, 1);
      Some(Record(s, key, NodeRow(node, hash), Created, actor, None))
  }

  /** The fields an update sets; None leaves a field alone. */
  datatype Change = Change(
    title: Option<string>, claim: Option<string>, attributes: Option<string>, confidence: Option<int>,
    sourceType: Option<string>,
    sourceRef: Option<string>, artifactRef: Option<string>, order: Option<int>,
    status: Option<Verification>, forResume: Option<bool>, forApplication: Option<bool>)

  function Revised(c: Content, ch: Change): Content {
    Content(c.kind, Or(ch.title, c.title), Or(ch.claim, c.claim), Or(ch.attributes, c.attributes),
            Or(ch.confidence, c.confidence),
            Or(ch.sourceType, c.sourceType), Or(ch.sourceRef, c.sourceRef), Or(ch.artifactRef, c.artifactRef))
  }

  function Changed(n: Node, ch: Change, actor: Actor, now: int): Node {
    var status := Or(ch.status, n.status);
    var moved, verified := status != n.status, status.Verified?;
    Node(
      Revised(n.content, ch), status,
      Or(ch.forResume, if moved then verified else n.forResume),
      Or(ch.forApplication, if moved then verified else n.forApplication),
      if !moved then n.verifiedBy else if verified then Some(actor) else None,
      if !moved then n.verifiedAt else if verified then Some(now) else None,
      n.active, Or(ch.order, n.order), n.version)
  }

  /** `update_node`: a new version and an audit event, unless nothing changed. */
  function Update(s: Store, key: Key, ch: Change, actor: Actor, hash: Option<string>, now: int): Option<Store> {
    if key !in s.nodes then None
    else
      var row := s.nodes[key];
      var n := Changed(row.node, ch, actor, now);
      var hash' := if hash.Some? then hash else row.hash;
      if !Truthful(n.status, n.forResume, n.forApplication) then None
      else if n == row.node then Some(s.(nodes := s.nodes[key := NodeRow(n, hash')]))
      else Some(Record(s, key, NodeRow(n.(version := n.version + 1), hash'), Updated, actor, Some(row.node)))
  }

  function SetActive(s: Store, key: Key, active: bool, actor: Actor): Option<Store> {
    if key !in s.nodes then None
    else
      var row := s.nodes[key];
      if row.node.active == active then Some(s)
      else
        var n := row.node.(active := active, version := row.node.version + 1);
        Some(Record(s, key, row.(node := n), if active then Restored else Removed, actor, Some(row.node)))
  }

  function Remove(s: Store, key: Key, actor: Actor): Option<Store> {
    SetActive(s, key, false, actor)
  }

  function Restore(s: Store, key: Key, actor: Actor): Option<Store> {
    SetActive(s, key, true, actor)
  }

  /** `add_relationship`: idempotent; only a new link is audited. */
  function AddLink(s: Store, l: Link, position: int): Option<Store> {
    if l.from !in s.nodes || l.to !in s.nodes then None
    else if l in s.links then Some(s.(links := s.links[l := position]))
    else Some(s.(links := s.links[l := position], log := s.log + [LinkEntry(l, position)]))
  }

  datatype ProfileAction = ProfileCreated | ProfileUpdated | ProfileSkipped

  /** `upsert_profile`: given fields replace the recorded ones, the others stay; None when it raises. */
  function UpsertProfile(s: Store, fields: map<string, string>, preferences: string,
                         hash: Option<string>): Option<(Store, ProfileAction)> {
    match s.profile
    case None =>
      if "name" !in fields || fields["name"] == "" then None
      else
        var row := ProfileRow(fields, preferences, hash, 1);
        Some((s.(profile := Some(row), log := s.log + [ProfileEntry(None, row)]), ProfileCreated))
    case Some(row) =>
      var hash' := if hash.Some? then hash else row.hash;
      if row.fields + fields == row.fields && preferences == row.preferences
      then Some((s.(profile := Some(row.(hash := hash'))), ProfileSkipped))
      else
        var row' := ProfileRow(row.fields + fields, preferences, hash', row.version + 1);
        Some((s.(profile := Some(row'), log := s.log + [ProfileEntry(Some(row), row')]), ProfileUpdated))
  }

  // ------------------------------------------------- what a call leaves behind

  /** Application-safe means VERIFIED, and what is in conflict or inferred goes nowhere. */
  predicate FlagsAllowed(status: Verification, forResume: bool, forApplication: bool) {
    (forApplication ==> status == Verified) && (status in {Conflict, Inferred} ==> !forResume)
  }

  /** One node is what it is now, by one audited event, and nothing else changed. */
  predicate OneEvent(s: Store, key: Key, action: Action, actor: Actor, before: Option<Node>, row: NodeRow, s': Store) {
    && s'.nodes == s.nodes[key := row] && s'.links == s.links && s'.profile == s.profile
    && s'.log == s.log + [NodeEntry(key, action, actor, before, row.node)]
  }

  predicate CreatedAs(s: Store, key: Key, d: NodeData, actor: Actor, hash: Option<string>, now: int, s': Store) {
    var verified := d.status == Verified;
    && key !in s.nodes
    && OneEvent(s, key, Created, actor, None,
                NodeRow(Node(d.content, d.status,
                             if d.forResume == None then verified else d.forResume.value,
                             if d.forApplication == None then verified else d.forApplication.value,
                             if verified then Some(actor) else None, if verified then Some(now) else None,
                             true, d.order, 1), hash), s')
  }

  /** A new key, no extraction passed off as verified, and flags that the status allows; a flag that is not given
      is that of a verified node. */
  lemma CreateMeans(s: Store, key: Key, d: NodeData, actor: Actor, hash: Option<string>, now: int)
    ensures var s' := Create(s, key, d, actor, hash, now); var verified := d.status == Verified;
      && (s'.Some? <==>
            && key !in s.nodes && !(verified && d.content.sourceType in {"INFERRED", "LLM_EXTRACTED"})
            && FlagsAllowed(d.status, if d.forResume == None then verified else d.forResume.value,
                            if d.forApplication == None then verified else d.forApplication.value))
      && (s'.Some? ==> CreatedAs(s, key, d, actor, hash, now, s'.value))
  {
  }

  /** The node with the given fields in place: a status that moves takes the flags that are not given and the
      verifier along, any other leaves them alone; kind and activity are never touched. */
  predicate RevisedAs(n: Node, ch: Change, actor: Actor, now: int, n': Node) {
    var status := if ch.status == None then n.status else ch.status.value;
    var moved, verified := status != n.status, status == Verified;
    && n'.content == Content(
         n.content.kind,
         if ch.title == None then n.content.title else ch.title.value,
         if ch.claim == None then n.content.claim else ch.claim.value,
         if ch.attributes == None then n.content.attributes else ch.attributes.value,
         if ch.confidence == None then n.content.confidence else ch.confidence.value,
         if ch.sourceType == None then n.content.sourceType else ch.sourceType.value,
         if ch.sourceRef == None then n.content.sourceRef else ch.sourceRef.value,
         if ch.artifactRef == None then n.content.artifactRef else ch.artifactRef.value)
    && n'.status == status && n'.active == n.active
    && n'.forResume == (if ch.forResume.Some? then ch.forResume.value else if moved then verified else n.forResume)
    && n'.forApplication ==
       (if ch.forApplication.Some? then ch.forApplication.value else if moved then verified else n.forApplication)
    && n'.verifiedBy == (if moved then if verified then Some(actor) else None else n.verifiedBy)
    && n'.verifiedAt == (if moved then if verified then Some(now) else None else n.verifiedAt)
    && n'.order == (if ch.order == None then n.order else ch.order.value)
  }

  /** A new version with its event when anything changed; otherwise at most the source hash is. */
  predicate UpdatedAs(s: Store, key: Key, ch: Change, actor: Actor, hash: Option<string>, now: int, s': Store) {
    && key in s.nodes && key in s'.nodes
    && (var n, n' := s.nodes[key].node, s'.nodes[key].node;
        && RevisedAs(n, ch, actor, now, n')
        && s'.nodes[key].hash == (if hash == None then s.nodes[key].hash else hash)
        && n'.version == n.version + (if n'.(version := n.version) == n then 0 else 1)
        && (if n' == n
            then s' == s.(nodes := s.nodes[key := s'.nodes[key]])
            else OneEvent(s, key, Updated, actor, Some(n), s'.nodes[key], s')))
  }

  /** An update is refused only for a key that is not there or flags that the status would not allow. */
  lemma UpdateMeans(s: Store, key: Key, ch: Change, actor: Actor, hash: Option<string>, now: int)
    ensures var s' := Update(s, key, ch, actor, hash, now);
      && (s'.Some? <==>
            key in s.nodes &&
            exists n: Node :: RevisedAs(s.nodes[key].node, ch, actor, now, n)
                              && FlagsAllowed(n.status, n.forResume, n.forApplication))
      && (s'.Some? ==> UpdatedAs(s, key, ch, actor, hash, now, s'.value))
  {
    if key in s.nodes {
      assert RevisedAs(s.nodes[key].node, ch, actor, now, Changed(s.nodes[key].node, ch, actor, now));
    }
  }

  /** Removal and restoration touch the activity and the version only, once. */
  predicate SwitchedAs(s: Store, key: Key, active: bool, actor: Actor, s': Store) {
    && key in s.nodes
    && (var n := s.nodes[key].node;
        if n.active == active then s' == s
        else OneEvent(s, key, if active then Restored else Removed, actor, Some(n),
                      NodeRow(n.(active := active, version := n.version + 1), s.nodes[key].hash), s'))
  }

  lemma SetActiveMeans(s: Store, key: Key, active: bool, actor: Actor)
    ensures var s' := SetActive(s, key, active, actor);
      (s'.Some? <==> key in s.nodes) && (s'.Some? ==> SwitchedAs(s, key, active, actor, s'.value))
  {
  }

  /** A link needs both its nodes; an old one only takes the new position, a new one is recorded. */
  predicate LinkedAs(s: Store, l: Link, position: int, s': Store) {
    && l.from in s.nodes && l.to in s.nodes && s'.links == s.links[l := position]
    && s' == s.(links := s'.links, log := if l in s.links then s.log else s.log + [LinkEntry(l, position)])
  }

  lemma AddLinkMeans(s: Store, l: Link, position: int)
    ensures var s' := AddLink(s, l, position);
      (s'.Some? <==> l.from in s.nodes && l.to in s.nodes) && (s'.Some? ==> LinkedAs(s, l, position, s'.value))
  {
  }

  /** Given fields replace the recorded ones and the others stay. A first profile needs a name; one that changes
      nothing is no version and no event, but takes the hash. */
  predicate ProfiledAs(s: Store, fields: map<string, string>, preferences: string, hash: Option<string>, s': Store,
                       action: ProfileAction) {
    && s'.profile.Some? && s' == s.(profile := s'.profile, log := s'.log)
    && (var row' := s'.profile.value;
        && row'.preferences == preferences
        && (match s.profile
            case None =>
              action == ProfileCreated && row'.fields == fields && row'.version == 1 && row'.hash == hash
            case Some(row) =>
              && row'.fields.Keys == row.fields.Keys + fields.Keys
              && (forall k :: k in row'.fields ==> row'.fields[k] == if k in fields then fields[k] else row.fields[k])
              && row'.hash == (if hash == None then row.hash else hash)
              && action == (if row'.fields == row.fields && preferences == row.preferences then ProfileSkipped
                            else ProfileUpdated)
              && row'.version == row.version + if action == ProfileUpdated then 1 else 0)
        && s'.log == if action == ProfileSkipped then s.log else s.log + [ProfileEntry(s.profile, row')])
  }

  lemma UpsertProfileMeans(s: Store, fields: map<string, string>, preferences: string, hash: Option<string>)
    ensures var r := UpsertProfile(s, fields, preferences, hash);
      && (r.Some? <==> s.profile.Some? || ("name" in fields && fields["name"] != ""))
      && (r.Some? ==> ProfiledAs(s, fields, preferences, hash, r.value.0, r.value.1))
  {
  }

  // -------------------------------------------------------------- what is kept

  /** The flags never overstate the status, and exactly a verified node names who verified it. */
  predicate Honest(n: Node) {
    && Truthful(n.status, n.forResume, n.forApplication)
    && (n.status.Verified? <==> n.verifiedBy.Some?) && (n.verifiedBy.Some? <==> n.verifiedAt.Some?)
  }

  /** The state the log last recorded for a node. */
  function Latest(log: seq<Entry>, key: Key): Option<Node> {
    if log == [] then None
    else
      var e := log[|log| - 1];
      if e.NodeEntry? && e.key == key then Some(e.after) else Latest(log[..|log| - 1], key)
  }

  function CountOf(log: seq<Entry>, key: Key): nat {
    if log == [] then 0
    else
      var e := log[|log| - 1];
      CountOf(log[..|log| - 1], key) + if e.NodeEntry? && e.key == key then 1 else 0
  }

  function Blurred(n: Option<Node>): Option<Node> {
    if n.Some? then Some(n.value.(order := 0)) else None
  }

  predicate SameNode(x: Option<Node>, y: Option<Node>, exact: bool) {
    if exact then x == y else Blurred(x) == Blurred(y)
  }

  /** Every node event starts from what the previous event of that node ended with. */
  predicate Chain(log: seq<Entry>, exact: bool) {
    log == [] ||
    (var front, e := log[..|log| - 1], log[|log| - 1];
     Chain(front, exact) && (e.NodeEntry? ==> SameNode(e.before, Latest(front, e.key), exact)))
  }

  function NodeAt(s: Store, key: Key): Option<Node> {
    if key in s.nodes then Some(s.nodes[key].node) else None
  }

  /** The audit trail of a store: a chain that ends in the rows, one event per version. With `exact` false
      the sort order is not compared. */
  ghost predicate Audited(s: Store, exact: bool) {
    && Chain(s.log, exact)
    && (forall key: Key :: SameNode(NodeAt(s, key), Latest(s.log, key), exact))
    && (forall key: Key :: CountOf(s.log, key) == if key in s.nodes then s.nodes[key].node.version else 0)
    && (forall key: Key :: key in s.nodes ==> Honest(s.nodes[key].node))
  }

  lemma RecordKeepsAudited(s: Store, key: Key, row: NodeRow, action: Action, actor: Actor, exact: bool)
    requires Audited(s, exact) && Honest(row.node)
    requires row.node.version == (if key in s.nodes then s.nodes[key].node.version else 0) + 1
    ensures Audited(Record(s, key, row, action, actor, NodeAt(s, key)), exact)
  {
    var s' := Record(s, key, row, action, actor, NodeAt(s, key));
    assert s'.log[..|s'.log| - 1] == s.log;
    assert SameNode(NodeAt(s, key), Latest(s.log, key), exact);
    forall k: Key ensures SameNode(NodeAt(s', k), Latest(s'.log, k), exact)
      ensures CountOf(s'.log, k) == if k in s'.nodes then s'.nodes[k].node.version else 0
    {
      assert k != key ==> NodeAt(s', k) == NodeAt(s, k) && SameNode(NodeAt(s, k), Latest(s.log, k), exact);
    }
  }

  lemma HashKeepsAudited(s: Store, key: Key, hash: Option<string>, exact: bool)
    requires Audited(s, exact) && key in s.nodes
    ensures Audited(s.(nodes := s.nodes[key := s.nodes[key].(hash := hash)]), exact)
  {
    var s' := s.(nodes := s.nodes[key := s.nodes[key].(hash := hash)]);
    forall k: Key ensures SameNode(NodeAt(s', k), Latest(s'.log, k), exact)
      ensures CountOf(s'.log, k) == if k in s'.nodes then s'.nodes[k].node.version else 0
    {
      assert NodeAt(s', k) == NodeAt(s, k) && SameNode(NodeAt(s, k), Latest(s.log, k), exact);
      assert CountOf(s.log, k) == if k in s.nodes then s.nodes[k].node.version else 0;
    }
  }

  /** An entry that is no node's changes nothing a node's trail is made of. */
  lemma OtherEntry(log: seq<Entry>, e: Entry, key: Key, exact: bool)
    requires !e.NodeEntry?
    ensures Latest(log + [e], key) == Latest(log, key) && CountOf(log + [e], key) == CountOf(log, key)
    ensures Chain(log + [e], exact) <==> Chain(log, exact)
  {
    assert (log + [e])[..|log|] == log;
  }

  /** The nodes are left alone, and at most an entry of something else is recorded. */
  lemma ElsewhereKeepsAudited(s: Store, s': Store, e: Entry, exact: bool)
    requires Audited(s, exact) && s'.nodes == s.nodes && !e.NodeEntry?
    requires s'.log == s.log || s'.log == s.log + [e]
    ensures Audited(s', exact)
  {
    OtherEntry(s.log, e, "", exact);
    forall k: Key ensures SameNode(NodeAt(s', k), Latest(s'.log, k), exact)
      ensures CountOf(s'.log, k) == if k in s'.nodes then s'.nodes[k].node.version else 0
    {
      OtherEntry(s.log, e, k, exact);
      assert NodeAt(s', k) == NodeAt(s, k) && SameNode(NodeAt(s, k), Latest(s.log, k), exact);
    }
  }

  lemma LinkKeepsAudited(s: Store, l: Link, position: int, exact: bool)
    requires Audited(s, exact) && AddLink(s, l, position).Some?
    ensures Audited(AddLink(s, l, position).value, exact)
  {
    ElsewhereKeepsAudited(s, AddLink(s, l, position).value, LinkEntry(l, position), exact);
  }

  lemma ProfileKeepsAudited(s: Store, fields: map<string, string>, preferences: string, hash: Option<string>,
                            exact: bool)
    requires Audited(s, exact) && UpsertProfile(s, fields, preferences, hash).Some?
    ensures Audited(UpsertProfile(s, fields, preferences, hash).value.0, exact)
  {
    var s' := UpsertProfile(s, fields, preferences, hash).value.0;
    ElsewhereKeepsAudited(s, s', ProfileEntry(s.profile, s'.profile.value), exact);
  }

  lemma ChangedIsHonest(n: Node, ch: Change, actor: Actor, now: int)
    requires Honest(n)
    ensures var n' := Changed(n, ch, actor, now); Truthful(n'.status, n'.forResume, n'.forApplication) ==> Honest(n')
  {
  }

  // ------------------------------------------------------------------ histories

  /** What a caller may ask of the repository. */
  datatype Op =
    | DoCreate(key: Key, data: NodeData, actor: Actor, hash: Option<string>, now: int)
    | DoUpdate(key: Key, change: Change, actor: Actor, hash: Option<string>, now: int)
    | DoRemove(key: Key, actor: Actor)
    | DoRestore(key: Key, actor: Actor)
    | DoLink(link: Link, position: int)
    | DoProfile(fields: map<string, string>, preferences: string, hash: Option<string>)

  function Try(s: Store, r: Option<Store>): Store {
    if r.Some? then r.value else s
  }

  /** A call that raises changes nothing. */
  function Apply(s: Store, op: Op): Store {
    match op
    case DoCreate(key, data, actor, hash, now) => Try(s, Create(s, key, data, actor, hash, now))
    case DoUpdate(key, change, actor, hash, now) => Try(s, Update(s, key, change, actor, hash, now))
    case DoRemove(key, actor) => Try(s, Remove(s, key, actor))
    case DoRestore(key, actor) => Try(s, Restore(s, key, actor))
    case DoLink(link, position) => Try(s, AddLink(s, link, position))
    case DoProfile(fields, preferences, hash) =>
      var r := UpsertProfile(s, fields, preferences, hash);
      if r.Some? then r.value.0 else s
  }

  const EMPTY := Store(map[], map[], [], None)

  function After(ops: seq<Op>): Store {
    if ops == [] then EMPTY else Apply(After(ops[..|ops| - 1]), ops[|ops| - 1])
  }

  lemma CreateKeepsAudited(s: Store, key: Key, d: NodeData, actor: Actor, hash: Option<string>, now: int, exact: bool)
    requires Audited(s, exact) && Create(s, key, d, actor, hash, now).Some?
    ensures Audited(Create(s, key, d, actor, hash, now).value, exact)
  {
    RecordKeepsAudited(s, key, Create(s, key, d, actor, hash, now).value.nodes[key], Created, actor, exact);
  }

  lemma UpdateKeepsAudited(s: Store, key: Key, ch: Change, actor: Actor, hash: Option<string>, now: int, exact: bool)
    requires Audited(s, exact) && Update(s, key, ch, actor, hash, now).Some?
    ensures Audited(Update(s, key, ch, actor, hash, now).value, exact)
  {
    var row := s.nodes[key];
    var n := Changed(row.node, ch, actor, now);
    var hash' := if hash.Some? then hash else row.hash;
    ChangedIsHonest(row.node, ch, actor, now);
    if n == row.node {
      HashKeepsAudited(s, key, hash', exact);
    } else {
      RecordKeepsAudited(s, key, NodeRow(n.(version := n.version + 1), hash'), Updated, actor, exact);
    }
  }

  lemma SetActiveKeepsAudited(s: Store, key: Key, active: bool, actor: Actor, exact: bool)
    requires Audited(s, exact) && SetActive(s, key, active, actor).Some?
    ensures Audited(SetActive(s, key, active, actor).value, exact)
  {
    var row := s.nodes[key];
    if row.node.active != active {
      RecordKeepsAudited(s, key, row.(node := row.node.(active := active, version := row.node.version + 1)),
                         if active then Restored else Removed, actor, exact);
    }
  }

  lemma ApplyKeepsAudited(s: Store, op: Op, exact: bool)
    requires Audited(s, exact)
    ensures Audited(Apply(s, op), exact)
  {
    match op
    case DoCreate(key, data, actor, hash, now) =>
      if Create(s, key, data, actor, hash, now).Some? { CreateKeepsAudited(s, key, data, actor, hash, now, exact); }
    case DoUpdate(key, change, actor, hash, now) =>
      if Update(s, key, change, actor, hash, now).Some? { UpdateKeepsAudited(s, key, change, actor, hash, now, exact); }
    case DoRemove(key, actor) =>
      if Remove(s, key, actor).Some? { SetActiveKeepsAudited(s, key, false, actor, exact); }
    case DoRestore(key, actor) =>
      if Restore(s, key, actor).Some? { SetActiveKeepsAudited(s, key, true, actor, exact); }
    case DoLink(link, position) =>
      if AddLink(s, link, position).Some? { LinkKeepsAudited(s, link, position, exact); }
    case DoProfile(fields, preferences, hash) =>
      if UpsertProfile(s, fields, preferences, hash).Some? { ProfileKeepsAudited(s, fields, preferences, hash, exact); }
  }

  /** For every sequence of repository calls: application-safe means VERIFIED, CONFLICT and INFERRED allow
      neither flag, a node names its verifier exactly when it is VERIFIED, its version is the number of its
      audit events, and those events form a chain that ends in the row. */
  lemma {:induction false} AlwaysAudited(ops: seq<Op>)
    ensures Audited(After(ops), true)
  {
    if ops != [] {
      AlwaysAudited(ops[..|ops| - 1]);
      ApplyKeepsAudited(After(ops[..|ops| - 1]), ops[|ops| - 1], true);
    }
  }

  // ---------------------------------------------------------- as it is written

  class EvidenceRepository {
    var store: Store

    constructor ()
      ensures store == EMPTY
    {
      store := EMPTY;
    }

    method CreateNode(key: Key, d: NodeData, actor: Actor, hash: Option<string>, now: int) returns (created: bool)
      modifies this
      ensures (if created then Some(store) else None) == Create(old(store), key, d, actor, hash, now)
      ensures created ==> CreatedAs(old(store), key, d, actor, hash, now, store)
      ensures (!created ==> store == old(store))
    {
      CreateMeans(store, key, d, actor, hash, now);
      if key in store.nodes { return false; }
      if d.content.sourceType in UNTRUSTED_SOURCE_TYPES && d.status.Verified? { return false; }
      var verified := d.status.Verified?;
      var forResume := if d.forResume.Some? then d.forResume.value else verified;
      var forApplication := if d.forApplication.Some? then d.forApplication.value else verified;
      if !Truthful(d.status, forResume, forApplication) { return false; }
      var node := Node(d.content, d.status, forResume, forApplication, None, None, true, d.order, 1);
      if verified {
        node := node.(verifiedBy := Some(actor), verifiedAt := Some(now));
      }
      store := store.(nodes := store.nodes[key := NodeRow(node, hash)]);
      store := store.(log := store.log + [NodeEntry(key, Created, actor, None, node)]);
      return true;
    }

    method Revise(before: Node, ch: Change, actor: Actor, now: int) returns (n: Node)
      ensures n == Changed(before, ch, actor, now)
    {
      var status := if ch.status.Some? then ch.status.value else before.status;
      var moved := status != before.status;
      n := before.(content := Revised(before.content, ch), status := status);
      if ch.order.Some? { n := n.(order := ch.order.value); }
      n := n.(forResume := if ch.forResume.Some? then ch.forResume.value else if moved then status.Verified?
                else before.forResume);
      n := n.(forApplication := if ch.forApplication.Some? then ch.forApplication.value else if moved
                then status.Verified? else before.forApplication);
      if moved {
        if status.Verified? {
          n := n.(verifiedBy := Some(actor), verifiedAt := Some(now));
        } else {
          n := n.(verifiedBy := None, verifiedAt := None);
        }
      }
    }

    method UpdateNode(key: Key, ch: Change, actor: Actor, hash: Option<string>, now: int) returns (found: bool)
      modifies this
      ensures (if found then Some(store) else None) == Update(old(store), key, ch, actor, hash, now)
      ensures found ==> UpdatedAs(old(store), key, ch, actor, hash, now, store)
      ensures (!found ==> store == old(store))
    {
      UpdateMeans(store, key, ch, actor, hash, now);
      if key !in store.nodes { return false; }
      var row := store.nodes[key];
      var before := row.node;
      var n := Revise(before, ch, actor, now);
      if !Truthful(n.status, n.forResume, n.forApplication) { return false; }
      if hash.Some? { row := row.(hash := hash); }
      if n == before {
        store := store.(nodes := store.nodes[key := row]);
        return true;
      }
      n := n.(version := n.version + 1);
      store := store.(nodes := store.nodes[key := row.(node := n)]);
      store := store.(log := store.log + [NodeEntry(key, Updated, actor, Some(before), n)]);
      return true;
    }

    method SetNodeActive(key: Key, active: bool, actor: Actor) returns (found: bool)
      modifies this
      ensures (if found then Some(store) else None) == SetActive(old(store), key, active, actor)
      ensures (found <==> key in old(store).nodes) && (found ==> SwitchedAs(old(store), key, active, actor, store))
      ensures (!found ==> store == old(store))
    {
      if key !in store.nodes { return false; }
      var row := store.nodes[key];
      if row.node.active == active { return true; }
      var n := row.node.(active := active);
      n := n.(version := n.version + 1);
      store := store.(nodes := store.nodes[key := row.(node := n)]);
      store := store.(log := store.log
                      + [NodeEntry(key, if active then Restored else Removed, actor, Some(row.node), n)]);
      return true;
    }

    method UpsertProfileRow(fields: map<string, string>, preferences: string, hash: Option<string>)
      returns (action: Option<ProfileAction>)
      modifies this
      ensures (if action.Some? then Some((store, action.value)) else None)
        == UpsertProfile(old(store), fields, preferences, hash)
      ensures action.Some? ==> ProfiledAs(old(store), fields, preferences, hash, store, action.value)
      ensures action.None? ==> store == old(store)
    {
      UpsertProfileMeans(store, fields, preferences, hash);
      if store.profile.None? {
        if "name" !in fields || fields["name"] == "" { return None; }
        var created := ProfileRow(fields, preferences, hash, 1);
        store := store.(profile := Some(created));
        store := store.(log := store.log + [ProfileEntry(None, created)]);
        return Some(ProfileCreated);
      }
      var before := store.profile.value;
      var row := before;
      var changed := false;
      if row.fields + fields != row.fields {
        row := row.(fields := row.fields + fields);
        changed := true;
      }
      if row.preferences != preferences {
        row := row.(preferences := preferences);
        changed := true;
      }
      if hash.Some? { row := row.(hash := hash); }
      if !changed {
        store := store.(profile := Some(row));
        return Some(ProfileSkipped);
      }
      row := row.(version := row.version + 1);
      store := store.(profile := Some(row));
      store := store.(log := store.log + [ProfileEntry(Some(before), row)]);
      return Some(ProfileUpdated);
    }

    method AddRelationship(l: Link, position: int) returns (found: bool, created: bool)
      modifies this
      ensures (if found then Some(store) else None) == AddLink(old(store), l, position)
      ensures (found <==> l.from in old(store).nodes && l.to in old(store).nodes)
      ensures found ==> LinkedAs(old(store), l, position, store)
      ensures (!found ==> store == old(store))
      ensures created <==> found && l !in old(store).links
    {
      if l.from !in store.nodes || l.to !in store.nodes { return false, false; }
      if l in store.links {
        store := store.(links := store.links[l := position]);
        return true, false;
      }
      store := store.(links := store.links[l := position], log := store.log + [LinkEntry(l, position)]);
      return true, true;
    }
  }
}
