/** The seed importer: app/career/importer.py. A document is read as the sequence of upserts and links it
    leads to; the importer carries them out one by one. */
module SeedImport {
  import opened Base
  import opened Evidence

  /** A seed record as the node it describes, and the hash of the record. */
  datatype Seed = Seed(key: Key, data: NodeData, hash: string)

  datatype Op =
    | Upsert(seed: Seed)
    | Bind(link: Link, position: int)
    | BindIfExists(link: Link, position: int)

  /** The importer's state: store, order counter and report. */
  datatype Run = Run(store: Store, order: nat, created: seq<Key>, updated: seq<Key>, skipped: seq<Key>, linked: nat)

  datatype Settings = Settings(actor: Actor, now: int, force: bool)

  function ChangeTo(d: NodeData, order: int): Change {
    Change(Some(d.content.title), Some(d.content.claim), Some(d.content.attributes), Some(d.content.confidence),
           Some(d.content.sourceType), Some(d.content.sourceRef), None, Some(order), Some(d.status),
           d.forResume, d.forApplication)
  }

  function Reordered(s: Store, key: Key, order: int): Store
    requires key in s.nodes
  {
    s.(nodes := s.nodes[key := s.nodes[key].(node := s.nodes[key].node.(order := order))])
  }

  predicate Known(s: Store, x: Seed, cfg: Settings) {
    x.key in s.nodes && s.nodes[x.key].hash == Some(x.hash) && !cfg.force
  }

  /** What `_upsert` does to the store. */
  function UpsertInto(s: Store, x: Seed, order: int, cfg: Settings): Option<Store> {
    if x.key !in s.nodes then Create(s, x.key, x.data.(order := order), cfg.actor, Some(x.hash), cfg.now)
    else if Known(s, x, cfg) then Some(Reordered(s, x.key, order))
    else Update(s, x.key, ChangeTo(x.data, order), cfg.actor, Some(x.hash), cfg.now)
  }

  /** `_upsert`. */
  function UpsertStep(r: Run, x: Seed, cfg: Settings): Option<Run> {
    var s := UpsertInto(r.store, x, r.order + 1, cfg);
    if s.None? then None
    else
      var r' := r.(store := s.value, order := r.order + 1);
      Some(if x.key !in r.store.nodes then r'.(created := r.created + [x.key])
           else if Known(r.store, x, cfg) then r'.(skipped := r.skipped + [x.key])
           else r'.(updated := r.updated + [x.key]))
  }

  /** `_link`. */
  function BindStep(r: Run, l: Link, position: int): Option<Run> {
    var s := AddLink(r.store, l, position);
    if s.None? then None else Some(r.(store := s.value, linked := r.linked + if l in r.store.links then 0 else 1))
  }

  function Step(r: Run, op: Op, cfg: Settings): Option<Run> {
    match op
    case Upsert(x) => UpsertStep(r, x, cfg)
    case Bind(l, position) => BindStep(r, l, position)
    case BindIfExists(l, position) =>
      if l.from in r.store.nodes && l.to in r.store.nodes then BindStep(r, l, position) else Some(r)
  }

  /** The whole import; None when some step raises and everything is rolled back. */
  function Import(plan: seq<Op>, s: Store, cfg: Settings): Option<Run> {
    if plan == [] then Some(Run(s, 0, [], [], [], 0))
    else
      var before := Import(plan[..|plan| - 1], s, cfg);
      if before.None? then None else Step(before.value, plan[|plan| - 1], cfg)
  }

  /** One step further, unless the import has failed. */
  function Next(r: Option<Run>, op: Op, cfg: Settings): Option<Run> {
    if r.None? then None else Step(r.value, op, cfg)
  }

  /** A run, continued by a plan. */
  function Continued(r: Option<Run>, plan: seq<Op>, cfg: Settings): Option<Run> {
    if plan == [] then r else Next(Continued(r, plan[..|plan| - 1], cfg), plan[|plan| - 1], cfg)
  }

  lemma {:induction false} ImportContinues(plan: seq<Op>, s: Store, cfg: Settings)
    ensures Import(plan, s, cfg) == Continued(Some(Run(s, 0, [], [], [], 0)), plan, cfg)
  {
    if plan != [] {
      ImportContinues(plan[..|plan| - 1], s, cfg);
    }
  }

  lemma {:induction false} ContinuedTwice(r: Option<Run>, x: seq<Op>, y: seq<Op>, cfg: Settings)
    ensures Continued(r, x + y, cfg) == Continued(Continued(r, x, cfg), y, cfg)
  {
    if y == [] {
      assert x + y == x;
    } else {
      var front, last := y[..|y| - 1], y[|y| - 1];
      ContinuedTwice(r, x, front, cfg);
      assert x + y == (x + front) + [last] && y == front + [last];
      ContinuedOnce(r, x + front, last, cfg);
      ContinuedOnce(Continued(r, x, cfg), front, last, cfg);
    }
  }

  lemma ContinuedOnce(r: Option<Run>, x: seq<Op>, op: Op, cfg: Settings)
    ensures Continued(r, x + [op], cfg) == Next(Continued(r, x, cfg), op, cfg)
  {
    assert (x + [op])[..|x + [op]| - 1] == x;
  }

  // ------------------------------------------------------- what a step leaves

  /** The node as the seed describes it: kind, artifact and activity stay, flags that the seed leaves open follow a
      status that moves, and the source hash is the seed's. */
  predicate SeededAs(row: NodeRow, x: Seed, order: nat, cfg: Settings, row': NodeRow) {
    var n, n', d := row.node, row'.node, x.data;
    var moved, verified := d.status != n.status, d.status == Verified;
    && row'.hash == Some(x.hash)
    && n'.content == d.content.(kind := n.content.kind, artifactRef := n.content.artifactRef)
    && n'.status == d.status && n'.active == n.active && n'.order == order
    && n'.forResume == (if d.forResume.Some? then d.forResume.value else if moved then verified else n.forResume)
    && n'.forApplication ==
       (if d.forApplication.Some? then d.forApplication.value else if moved then verified else n.forApplication)
    && n'.verifiedBy == (if moved then if verified then Some(cfg.actor) else None else n.verifiedBy)
  }

  /** A seed with a new key becomes a node; one whose hash is known only takes its place in the order, unless forced;
      any other is written over the node. The report lists the key once, under what was done. */
  ghost predicate UpsertedAs(r: Run, x: Seed, cfg: Settings, r': Run) {
    var s, s', order := r.store, r'.store, r.order + 1;
    && r'.order == order && r'.linked == r.linked && s'.links == s.links && s'.profile == s.profile
    && (forall k :: k != x.key ==> (k in s'.nodes <==> k in s.nodes))
    && (forall k :: k != x.key && k in s.nodes ==> s'.nodes[k] == s.nodes[k])
    && x.key in s'.nodes
    && (if x.key !in s.nodes then
          && (r'.created, r'.updated, r'.skipped) == (r.created + [x.key], r.updated, r.skipped)
          && CreatedAs(s, x.key, x.data.(order := order), cfg.actor, Some(x.hash), cfg.now, s')
        else if s.nodes[x.key].hash == Some(x.hash) && !cfg.force then
          && (r'.created, r'.updated, r'.skipped) == (r.created, r.updated, r.skipped + [x.key])
          && s'.nodes[x.key] == s.nodes[x.key].(node := s.nodes[x.key].node.(order := order)) && s'.log == s.log
        else
          && (r'.created, r'.updated, r'.skipped) == (r.created, r.updated + [x.key], r.skipped)
          && SeededAs(s.nodes[x.key], x, order, cfg, s'.nodes[x.key]))
  }

  lemma UpsertMeans(r: Run, x: Seed, cfg: Settings)
    ensures var r' := UpsertStep(r, x, cfg); r'.Some? ==> UpsertedAs(r, x, cfg, r'.value)
  {
    CreateMeans(r.store, x.key, x.data.(order := r.order + 1), cfg.actor, Some(x.hash), cfg.now);
    UpdateMeans(r.store, x.key, ChangeTo(x.data, r.order + 1), cfg.actor, Some(x.hash), cfg.now);
  }

  // ---------------------------------------------------------------- vocabulary

  /** The keys of the upserts of a plan, in order. */
  function Keys(plan: seq<Op>): seq<Key> {
    if plan == [] then []
    else Keys(plan[..|plan| - 1]) + if plan[|plan| - 1].Upsert? then [plan[|plan| - 1].seed.key] else []
  }

  /** The hash the last upsert of a key carries. */
  function LastHash(plan: seq<Op>, key: Key): Option<string> {
    if plan == [] then None
    else
      var op := plan[|plan| - 1];
      if op.Upsert? && op.seed.key == key then Some(op.seed.hash) else LastHash(plan[..|plan| - 1], key)
  }

  /** All upserts of one key carry one hash; pairwise distinct keys, for instance. */
  predicate Uniform(plan: seq<Op>) {
    forall i :: 0 <= i < |plan| && plan[i].Upsert? ==> LastHash(plan, plan[i].seed.key) == Some(plan[i].seed.hash)
  }

  /** Both ends exist once the first `n` steps of the plan are done. */
  predicate EndsExist(plan: seq<Op>, n: nat, s: Store, l: Link)
    requires n <= |plan|
  {
    (l.from in s.nodes || l.from in Keys(plan[..n])) && (l.to in s.nodes || l.to in Keys(plan[..n]))
  }

  /** Step `j` makes link `l` on the first import. */
  predicate Makes(plan: seq<Op>, j: int, s: Store, l: Link) {
    0 <= j < |plan| && !plan[j].Upsert? && plan[j].link == l && (plan[j].Bind? || EndsExist(plan, j, s, l))
  }

  /** Every conditional link whose two ends exist in the end was made on the way. */
  ghost predicate Settled(plan: seq<Op>, s: Store) {
    forall i :: 0 <= i < |plan| && plan[i].BindIfExists? && EndsExist(plan, |plan|, s, plan[i].link) ==>
      plan[i].link in s.links || exists j :: Makes(plan, j, s, plan[i].link)
  }

  // ------------------------------------------------------- what an import leaves

  lemma KeysPrefix(plan: seq<Op>, n: nat, key: Key)
    requires n <= |plan| && key in Keys(plan[..n])
    ensures key in Keys(plan)
    decreases |plan|
  {
    if n == |plan| {
      assert plan[..n] == plan;
    } else {
      assert plan[..|plan| - 1][..n] == plan[..n];
      KeysPrefix(plan[..|plan| - 1], n, key);
    }
  }

  lemma UpsertNodes(r: Run, x: Seed, cfg: Settings, key: Key)
    requires UpsertStep(r, x, cfg).Some?
    ensures var s' := UpsertStep(r, x, cfg).value.store;
      && (key in s'.nodes <==> key in r.store.nodes || x.key == key)
      && (key in s'.nodes ==> s'.nodes[key].hash == if x.key == key then Some(x.hash) else r.store.nodes[key].hash)
      && s'.links == r.store.links
  {
    var order := r.order + 1;
    if x.key !in r.store.nodes {
      var s := Create(r.store, x.key, x.data.(order := order), cfg.actor, Some(x.hash), cfg.now);
      assert s.Some?;
    } else if !(r.store.nodes[x.key].hash == Some(x.hash) && !cfg.force) {
      UpdateRow(r.store, x.key, ChangeTo(x.data, order), cfg.actor, x.hash, cfg.now);
    }
  }

  lemma UpdateRow(s: Store, key: Key, ch: Change, actor: Actor, hash: string, now: int)
    requires Update(s, key, ch, actor, Some(hash), now).Some?
    ensures var s' := Update(s, key, ch, actor, Some(hash), now).value;
      key in s.nodes && s'.links == s.links && key in s'.nodes && s'.nodes[key].hash == Some(hash)
        && s'.nodes == s.nodes[key := s'.nodes[key]]
  {
  }

  lemma {:induction false} NodesAfter(plan: seq<Op>, s: Store, cfg: Settings, key: Key)
    requires Import(plan, s, cfg).Some?
    ensures key in Import(plan, s, cfg).value.store.nodes <==> key in s.nodes || key in Keys(plan)
    ensures key in Keys(plan) ==> Import(plan, s, cfg).value.store.nodes[key].hash == LastHash(plan, key)
    ensures key in Keys(plan) <==> LastHash(plan, key).Some?
  {
    if plan != [] {
      var n := |plan| - 1;
      NodesAfter(plan[..n], s, cfg, key);
      var before := Import(plan[..n], s, cfg).value;
      if plan[n].Upsert? {
        UpsertNodes(before, plan[n].seed, cfg, key);
      } else {
        assert Import(plan, s, cfg).value.store.nodes == before.store.nodes;
      }
    }
  }

  lemma {:induction false} LinksAfter(plan: seq<Op>, s: Store, cfg: Settings, l: Link)
    requires Import(plan, s, cfg).Some?
    ensures l in Import(plan, s, cfg).value.store.links <==> l in s.links || exists j :: Makes(plan, j, s, l)
  {
    if plan != [] {
      var n := |plan| - 1;
      var front := plan[..n];
      LinksAfter(front, s, cfg, l);
      NodesAfter(front, s, cfg, l.from);
      NodesAfter(front, s, cfg, l.to);
      var before := Import(front, s, cfg).value;
      if plan[n].Upsert? {
        UpsertNodes(before, plan[n].seed, cfg, plan[n].seed.key);
      }
      assert l in Import(plan, s, cfg).value.store.links <==> l in before.store.links || Makes(plan, n, s, l);
      forall j | 0 <= j < n ensures Makes(plan, j, s, l) <==> Makes(front, j, s, l) {
        assert front[..j] == plan[..j];
      }
    }
  }

  lemma {:induction false} FirstImportLinks(plan: seq<Op>, s: Store, cfg: Settings)
    requires Import(plan, s, cfg).Some?
    ensures Settled(plan, s) <==> QuietLinks(plan, |plan|, Import(plan, s, cfg).value.store)
  {
    var done := Import(plan, s, cfg).value.store;
    assert plan[..|plan|] == plan;
    forall i | 0 <= i < |plan| && !plan[i].Upsert?
      ensures plan[i].link in done.links <==> plan[i].link in s.links || exists j :: Makes(plan, j, s, plan[i].link)
      ensures EndsExist(plan, |plan|, s, plan[i].link) <==>
        plan[i].link.from in done.nodes && plan[i].link.to in done.nodes
      ensures plan[i].Bind? ==> plan[i].link in done.links
    {
      var l := plan[i].link;
      LinksAfter(plan, s, cfg, l);
      NodesAfter(plan, s, cfg, l.from);
      NodesAfter(plan, s, cfg, l.to);
      assert plan[i].Bind? ==> Makes(plan, i, s, l);
    }
  }

  // ------------------------------------------------------------ the second import

  /** What a person may have done in between: anything but touching source hashes. */
  predicate Edited(s: Store, s': Store) {
    && s.nodes.Keys <= s'.nodes.Keys && (forall k :: k in s.nodes ==> s'.nodes[k].hash == s.nodes[k].hash)
    && (s.profile.Some? ==> s'.profile.Some? && s'.profile.value.hash == s.profile.value.hash)
  }

  /** A call by a person, which carries no source hash. */
  predicate ByHand(call: Evidence.Op) {
    (call.DoUpdate? || call.DoProfile?) ==> call.hash.None?
  }

  /** The store after a sequence of repository calls. */
  function Worked(s: Store, calls: seq<Evidence.Op>): Store {
    if calls == [] then s else Evidence.Apply(Worked(s, calls[..|calls| - 1]), calls[|calls| - 1])
  }

  lemma NodeEdited(s: Store, key: Key, row: NodeRow, log: seq<Entry>)
    requires key in s.nodes ==> row.hash == s.nodes[key].hash
    ensures Edited(s, s.(nodes := s.nodes[key := row], log := log))
  {
  }

  lemma UpdateEdited(s: Store, key: Key, ch: Change, actor: Actor, now: int)
    requires Update(s, key, ch, actor, None, now).Some?
    ensures Edited(s, Update(s, key, ch, actor, None, now).value)
  {
    var s' := Update(s, key, ch, actor, None, now).value;
    NodeEdited(s, key, s'.nodes[key], s'.log);
  }

  lemma SetActiveEdited(s: Store, key: Key, active: bool, actor: Actor)
    requires SetActive(s, key, active, actor).Some?
    ensures Edited(s, SetActive(s, key, active, actor).value)
  {
    var s' := SetActive(s, key, active, actor).value;
    if s' != s {
      NodeEdited(s, key, s'.nodes[key], s'.log);
    }
  }

  lemma CallEdited(s: Store, call: Evidence.Op)
    requires ByHand(call)
    ensures Edited(s, Evidence.Apply(s, call))
  {
    match call
    case DoCreate(key, data, actor, hash, now) =>
    case DoUpdate(key, change, actor, hash, now) =>
      if Update(s, key, change, actor, None, now).Some? { UpdateEdited(s, key, change, actor, now); }
    case DoRemove(key, actor) => if Remove(s, key, actor).Some? { SetActiveEdited(s, key, false, actor); }
    case DoRestore(key, actor) => if Restore(s, key, actor).Some? { SetActiveEdited(s, key, true, actor); }
    case DoLink(link, position) =>
    case DoProfile(fields, preferences, hash) =>
  }

  /** Whatever people do through the repository, in any number of calls, is such an edit. */
  lemma {:induction false} RepositoryEdits(s: Store, calls: seq<Evidence.Op>)
    requires forall i :: 0 <= i < |calls| ==> ByHand(calls[i])
    ensures Edited(s, Worked(s, calls))
  {
    if calls != [] {
      RepositoryEdits(s, calls[..|calls| - 1]);
      CallEdited(Worked(s, calls[..|calls| - 1]), calls[|calls| - 1]);
    }
  }

  predicate SameButOrder(x: NodeRow, y: NodeRow) {
    x.hash == y.hash && x.node.(order := 0) == y.node.(order := 0)
  }

  /** Every node is as it was, except for its place in the order. */
  ghost predicate Untouched(s: Store, s': Store) {
    s'.nodes.Keys == s.nodes.Keys && forall k :: k in s.nodes ==> SameButOrder(s'.nodes[k], s.nodes[k])
  }

  /** No link step among the first `n` finds both ends and no link. */
  ghost predicate QuietLinks(plan: seq<Op>, n: nat, s: Store) {
    forall i ::
      0 <= i < n && i < |plan| && !plan[i].Upsert? && plan[i].link.from in s.nodes && plan[i].link.to in s.nodes ==>
        plan[i].link in s.links
  }

  /** The import so far has changed no node and recorded nothing but new links. */
  ghost predicate Quiet(r: Run, plan: seq<Op>, n: nat, s: Store)
    requires n <= |plan|
  {
    && r.created == [] && r.updated == [] && r.skipped == Keys(plan[..n])
    && Untouched(s, r.store)
    && s.links.Keys <= r.store.links.Keys
    && |s.log| <= |r.store.log| && r.store.log[..|s.log|] == s.log
    && (QuietLinks(plan, n, s) <==> r.linked == 0)
    && (r.linked == 0 ==> r.store.log == s.log && r.store.links.Keys == s.links.Keys)
    && (r.linked > 0 ==> |r.store.log| > |s.log|)
    && r.store.profile == s.profile
  }

  lemma QuietStep(r: Run, plan: seq<Op>, n: nat, s: Store, cfg: Settings)
    requires n < |plan| && Quiet(r, plan, n, s) && !cfg.force
    requires plan[n].Upsert? ==>
      plan[n].seed.key in s.nodes && s.nodes[plan[n].seed.key].hash == Some(plan[n].seed.hash)
    requires plan[n].Bind? ==> plan[n].link.from in s.nodes && plan[n].link.to in s.nodes
    ensures Step(r, plan[n], cfg).Some? && Quiet(Step(r, plan[n], cfg).value, plan, n + 1, s)
  {
    if plan[n].Upsert? {
      QuietUpsert(r, plan, n, s, cfg);
    } else {
      QuietBind(r, plan, n, s, cfg);
    }
  }

  lemma QuietUpsert(r: Run, plan: seq<Op>, n: nat, s: Store, cfg: Settings)
    requires n < |plan| && Quiet(r, plan, n, s) && !cfg.force && plan[n].Upsert?
    requires plan[n].seed.key in s.nodes && s.nodes[plan[n].seed.key].hash == Some(plan[n].seed.hash)
    ensures Step(r, plan[n], cfg).Some? && Quiet(Step(r, plan[n], cfg).value, plan, n + 1, s)
  {
    var x := plan[n].seed;
    assert plan[..n + 1][..n] == plan[..n];
    assert SameButOrder(r.store.nodes[x.key], s.nodes[x.key]);
    assert Step(r, plan[n], cfg)
      == Some(r.(store := Reordered(r.store, x.key, r.order + 1), order := r.order + 1,
                 skipped := r.skipped + [x.key]));
    assert QuietLinks(plan, n + 1, s) <==> QuietLinks(plan, n, s);
  }

  lemma QuietBind(r: Run, plan: seq<Op>, n: nat, s: Store, cfg: Settings)
    requires n < |plan| && Quiet(r, plan, n, s) && !plan[n].Upsert?
    requires plan[n].Bind? ==> plan[n].link.from in s.nodes && plan[n].link.to in s.nodes
    ensures Step(r, plan[n], cfg).Some? && Quiet(Step(r, plan[n], cfg).value, plan, n + 1, s)
  {
    var l := plan[n].link;
    assert plan[..n + 1][..n] == plan[..n];
    assert Keys(plan[..n + 1]) == Keys(plan[..n]);
    assert QuietLinks(plan, n + 1, s) <==>
      QuietLinks(plan, n, s) && (l.from in s.nodes && l.to in s.nodes ==> l in s.links);
    if l.from in s.nodes && l.to in s.nodes {
      QuietLink(r, plan, n, s, plan[n].position);
      assert Step(r, plan[n], cfg) == BindStep(r, l, plan[n].position);
    } else {
      assert Step(r, plan[n], cfg) == Some(r);
    }
  }

  /** A link step whose two ends exist. */
  lemma QuietLink(r: Run, plan: seq<Op>, n: nat, s: Store, position: int)
    requires n < |plan| && Quiet(r, plan, n, s) && !plan[n].Upsert? && Keys(plan[..n + 1]) == Keys(plan[..n])
    requires plan[n].link.from in s.nodes && plan[n].link.to in s.nodes
    requires QuietLinks(plan, n + 1, s) <==> QuietLinks(plan, n, s) && plan[n].link in s.links
    ensures BindStep(r, plan[n].link, position).Some?
    ensures Quiet(BindStep(r, plan[n].link, position).value, plan, n + 1, s)
  {
    var l, r' := plan[n].link, BindStep(r, plan[n].link, position).value;
    assert l.from in r.store.nodes && l.to in r.store.nodes;
    if l in r.store.links {
      assert r'.store.log == r.store.log && r'.store.links.Keys == r.store.links.Keys;
    } else {
      assert r'.store.log == r.store.log + [LinkEntry(l, position)] && l !in s.links;
      assert (r.store.log + [LinkEntry(l, position)])[..|s.log|] == r.store.log[..|s.log|];
    }
  }

  lemma {:induction false} QuietPrefix(plan: seq<Op>, n: nat, s: Store, cfg: Settings)
    requires n <= |plan| && !cfg.force
    requires forall i :: 0 <= i < |plan| && plan[i].Upsert? ==>
      plan[i].seed.key in s.nodes && s.nodes[plan[i].seed.key].hash == Some(plan[i].seed.hash)
    requires forall i :: 0 <= i < |plan| && plan[i].Bind? ==> plan[i].link.from in s.nodes && plan[i].link.to in s.nodes
    ensures Import(plan[..n], s, cfg).Some? && Quiet(Import(plan[..n], s, cfg).value, plan, n, s)
  {
    if 0 < n {
      var m := n - 1;
      QuietPrefix(plan, m, s, cfg);
      assert plan[..n][..m] == plan[..m];
      QuietStep(Import(plan[..m], s, cfg).value, plan, m, s, cfg);
    }
  }

  lemma {:induction false} BoundEndsExist(plan: seq<Op>, s: Store, cfg: Settings, i: nat)
    requires Import(plan, s, cfg).Some? && i < |plan| && plan[i].Bind?
    ensures plan[i].link.from in Import(plan, s, cfg).value.store.nodes
    ensures plan[i].link.to in Import(plan, s, cfg).value.store.nodes
  {
    var n := |plan| - 1;
    if i < n {
      BoundEndsExist(plan[..n], s, cfg, i);
    }
  }

  lemma ListedIn(plan: seq<Op>, i: nat)
    requires i < |plan| && plan[i].Upsert?
    ensures plan[i].seed.key in Keys(plan)
  {
    var n := i + 1;
    assert plan[..n][..i] == plan[..i];
    KeysPrefix(plan, n, plan[i].seed.key);
  }

  /** Importing a plan again, after any edits by people, changes no node but its order, creates and updates
      nothing and reports every key skipped; it records no audit event and no relationship exactly when every
      link whose ends exist is there already. */
  lemma SecondImportIsQuiet(plan: seq<Op>, s: Store, cfg: Settings, edited: Store, again: Settings)
    requires Import(plan, s, cfg).Some? && Edited(Import(plan, s, cfg).value.store, edited) && Uniform(plan)
    requires !again.force
    ensures Import(plan, edited, again).Some?
    ensures var r := Import(plan, edited, again).value;
      && r.created == [] && r.updated == [] && r.skipped == Keys(plan) && Untouched(edited, r.store)
      && r.store.profile == edited.profile
      && (r.linked == 0 <==> QuietLinks(plan, |plan|, edited))
      && (r.store.log == edited.log <==> QuietLinks(plan, |plan|, edited))
  {
    forall i | 0 <= i < |plan| && plan[i].Upsert?
      ensures plan[i].seed.key in edited.nodes && edited.nodes[plan[i].seed.key].hash == Some(plan[i].seed.hash)
    {
      ListedIn(plan, i);
      NodesAfter(plan, s, cfg, plan[i].seed.key);
    }
    forall i | 0 <= i < |plan| && plan[i].Bind?
      ensures plan[i].link.from in edited.nodes && plan[i].link.to in edited.nodes {
      BoundEndsExist(plan, s, cfg, i);
    }
    QuietPrefix(plan, |plan|, edited, again);
    assert plan[..|plan|] == plan;
  }

  /** While nobody adds a relationship or a node, silence depends on the first import alone: every conditional link
      whose ends exist in the end must have been made on the way. */
  lemma QuietExactlyWhenSettled(plan: seq<Op>, s: Store, cfg: Settings, edited: Store)
    requires Import(plan, s, cfg).Some? && Edited(Import(plan, s, cfg).value.store, edited)
    requires edited.links == Import(plan, s, cfg).value.store.links
    requires edited.nodes.Keys == Import(plan, s, cfg).value.store.nodes.Keys
    ensures QuietLinks(plan, |plan|, edited) <==> Settled(plan, s)
  {
    FirstImportLinks(plan, s, cfg);
    assert QuietLinks(plan, |plan|, edited) <==> QuietLinks(plan, |plan|, Import(plan, s, cfg).value.store);
  }

  /** As long as nothing was updated and every key exists, the hashes are those the import began with. */
  lemma {:induction false} NoUpdateKeepsHashes(plan: seq<Op>, s: Store, cfg: Settings)
    requires Import(plan, s, cfg).Some? && !cfg.force && Import(plan, s, cfg).value.updated == []
    requires forall i :: 0 <= i < |plan| && plan[i].Upsert? ==> plan[i].seed.key in s.nodes
    ensures Import(plan, s, cfg).value.store.nodes.Keys == s.nodes.Keys
    ensures forall k :: k in s.nodes ==> Import(plan, s, cfg).value.store.nodes[k].hash == s.nodes[k].hash
    ensures forall i :: 0 <= i < |plan| && plan[i].Upsert? ==> s.nodes[plan[i].seed.key].hash == Some(plan[i].seed.hash)
  {
    if plan != [] {
      NoUpdateKeepsHashes(plan[..|plan| - 1], s, cfg);
    }
  }

  /** The condition on keys is exact: a second import that updates nothing proves that no key had two hashes. */
  lemma QuietMeansUniform(plan: seq<Op>, s: Store, cfg: Settings, edited: Store, again: Settings)
    requires Import(plan, s, cfg).Some? && Edited(Import(plan, s, cfg).value.store, edited) && !again.force
    requires Import(plan, edited, again).Some? && Import(plan, edited, again).value.updated == []
    ensures Uniform(plan)
  {
    forall i | 0 <= i < |plan| && plan[i].Upsert? ensures plan[i].seed.key in edited.nodes {
      ListedIn(plan, i);
      NodesAfter(plan, s, cfg, plan[i].seed.key);
    }
    NoUpdateKeepsHashes(plan, edited, again);
    forall i | 0 <= i < |plan| && plan[i].Upsert? ensures LastHash(plan, plan[i].seed.key) == Some(plan[i].seed.hash) {
      ListedIn(plan, i);
      NodesAfter(plan, s, cfg, plan[i].seed.key);
    }
  }

  // ------------------------------------------------------------------ the audit

  /** The silent write of the sort order is the one thing the audit trail does not see: it keeps the trail
      apart from the order, and keeps it exactly only when the order was that already. */
  lemma ReorderAndTheTrail(s: Store, key: Key, order: int)
    requires key in s.nodes
    ensures Audited(s, false) ==> Audited(Reordered(s, key, order), false)
    ensures Audited(s, true) ==> (Audited(Reordered(s, key, order), true) <==> order == s.nodes[key].node.order)
  {
    var s' := Reordered(s, key, order);
    if Audited(s, false) {
      forall k: Key ensures SameNode(NodeAt(s', k), Latest(s'.log, k), false)
        ensures CountOf(s'.log, k) == if k in s'.nodes then s'.nodes[k].node.version else 0
      {
        assert SameNode(NodeAt(s, k), Latest(s.log, k), false);
        assert CountOf(s.log, k) == if k in s.nodes then s.nodes[k].node.version else 0;
      }
    }
    if Audited(s, true) {
      assert SameNode(NodeAt(s, key), Latest(s.log, key), true);
      if order == s.nodes[key].node.order {
        assert s' == s;
      } else {
        assert !SameNode(NodeAt(s', key), Latest(s'.log, key), true);
      }
    }
  }

  lemma UpsertKeepsTrail(s: Store, x: Seed, order: int, cfg: Settings)
    requires Audited(s, false) && UpsertInto(s, x, order, cfg).Some?
    ensures Audited(UpsertInto(s, x, order, cfg).value, false)
  {
    if x.key !in s.nodes {
      CreateKeepsAudited(s, x.key, x.data.(order := order), cfg.actor, Some(x.hash), cfg.now, false);
    } else if Known(s, x, cfg) {
      ReorderAndTheTrail(s, x.key, order);
    } else {
      UpdateKeepsAudited(s, x.key, ChangeTo(x.data, order), cfg.actor, Some(x.hash), cfg.now, false);
    }
  }

  lemma StepStore(r: Run, op: Op, cfg: Settings)
    requires Step(r, op, cfg).Some?
    ensures var s' := Step(r, op, cfg).value.store;
      if op.Upsert? then UpsertInto(r.store, op.seed, r.order + 1, cfg) == Some(s')
      else s' == r.store || AddLink(r.store, op.link, op.position) == Some(s')
  {
  }

  lemma StepKeepsTrail(r: Run, op: Op, cfg: Settings)
    requires Audited(r.store, false) && Step(r, op, cfg).Some?
    ensures Audited(Step(r, op, cfg).value.store, false)
  {
    StepStore(r, op, cfg);
    var s' := Step(r, op, cfg).value.store;
    if op.Upsert? {
      UpsertKeepsTrail(r.store, op.seed, r.order + 1, cfg);
    } else if s' != r.store {
      LinkKeepsAudited(r.store, op.link, op.position, false);
    }
  }

  /** Every import, forced or not, leaves a store whose truth rules hold and whose trail is a chain, apart
      from the sort order. */
  lemma {:induction false} ImportKeepsTrail(plan: seq<Op>, s: Store, cfg: Settings)
    requires Audited(s, false) && Import(plan, s, cfg).Some?
    ensures Audited(Import(plan, s, cfg).value.store, false)
  {
    if plan != [] {
      ImportKeepsTrail(plan[..|plan| - 1], s, cfg);
      StepKeepsTrail(Import(plan[..|plan| - 1], s, cfg).value, plan[|plan| - 1], cfg);
    }
  }

  // -------------------------------------------------------------- the documents

  datatype Skill = Skill(node: Seed, projects: seq<Key>)
  // a project with metrics, an experience with responsibilities
  datatype Owner = Owner(node: Seed, parts: seq<Seed>)
  datatype Remark = Remark(node: Seed, about: Option<Key>)        // an achievement or a fact

  /** The profile record, its preferences and the hash over both. */
  datatype ProfileSeed = ProfileSeed(fields: map<string, string>, preferences: string, hash: string)

  datatype Document = Document(profile: Option<ProfileSeed>, skills: seq<Skill>, projects: seq<Owner>,
    experience: seq<Owner>, achievements: seq<Remark>, facts: seq<Remark>, education: Option<Seed>, links: seq<Seed>)

  function SkillOps(skills: seq<Skill>): seq<Op> {
    if skills == [] then [] else SkillOps(skills[..|skills| - 1]) + [Upsert(skills[|skills| - 1].node)]
  }

  function PartOps(owner: Key, parts: seq<Seed>, relation: string): seq<Op> {
    if parts == [] then []
    else
      var n := |parts| - 1;
      PartOps(owner, parts[..n], relation) + [Upsert(parts[n])] + [Bind(Link(owner, parts[n].key, relation), n)]
  }

  function OwnerOp(o: Owner, relation: string): seq<Op> {
    [Upsert(o.node)] + PartOps(o.node.key, o.parts, relation)
  }

  function OwnerOps(owners: seq<Owner>, relation: string): seq<Op> {
    if owners == [] then [] else OwnerOps(owners[..|owners| - 1], relation) + OwnerOp(owners[|owners| - 1], relation)
  }

  function RemarkOp(r: Remark): seq<Op> {
    [Upsert(r.node)] + if r.about.Some? then [BindIfExists(Link(r.node.key, r.about.value, "ABOUT"), 0)] else []
  }

  function RemarkOps(remarks: seq<Remark>): seq<Op> {
    if remarks == [] then [] else RemarkOps(remarks[..|remarks| - 1]) + RemarkOp(remarks[|remarks| - 1])
  }

  function ShownIn(skill: Key, projects: seq<Key>): seq<Op> {
    if projects == [] then []
    else
      var n := |projects| - 1;
      ShownIn(skill, projects[..n]) + [BindIfExists(Link(projects[n], skill, "DEMONSTRATES"), n)]
  }

  function DemonstratesOps(skills: seq<Skill>): seq<Op> {
    if skills == [] then []
    else DemonstratesOps(skills[..|skills| - 1]) + ShownIn(skills[|skills| - 1].node.key, skills[|skills| - 1].projects)
  }

  function SeedOps(seeds: seq<Seed>): seq<Op> {
    if seeds == [] then [] else SeedOps(seeds[..|seeds| - 1]) + [Upsert(seeds[|seeds| - 1])]
  }

  function RecordOps(d: Document): seq<Op> {
    SkillOps(d.skills) + (WorkOps(d) + StatementOps(d))
  }

  function StatementOps(d: Document): seq<Op> {
    RemarkOps(d.achievements) + RemarkOps(d.facts)
  }

  function WorkOps(d: Document): seq<Op> {
    OwnerOps(d.projects, "HAS_METRIC") + OwnerOps(d.experience, "HAS_RESPONSIBILITY")
  }

  function ClosingOps(d: Document): seq<Op> {
    DemonstratesOps(d.skills) + (EducationOps(d) + SeedOps(d.links))
  }

  function EducationOps(d: Document): seq<Op> {
    if d.education.Some? then [Upsert(d.education.value)] else []
  }

  /** The order in which `import_data` works through a document. */
  function PlanOf(d: Document): seq<Op> {
    RecordOps(d) + ClosingOps(d)
  }

  /** An owner's own seed or one of its parts. */
  predicate OwnedSeed(owners: seq<Owner>, x: Seed) {
    exists i :: 0 <= i < |owners| && (owners[i].node == x || x in owners[i].parts)
  }

  /** The link of an owner to its part, in the part's position. */
  ghost predicate PartLink(owners: seq<Owner>, relation: string, l: Link, position: int) {
    exists i :: 0 <= i < |owners| && LinksPart(owners[i], relation, l, position)
  }

  predicate LinksPart(o: Owner, relation: string, l: Link, position: int) {
    0 <= position < |o.parts| && l == Link(o.node.key, o.parts[position].key, relation)
  }

  predicate AboutLink(remarks: seq<Remark>, l: Link) {
    exists i :: 0 <= i < |remarks| && remarks[i].about == Some(l.to) && l.from == remarks[i].node.key
                && l.relation == "ABOUT"
  }

  predicate ShowsSkill(x: Skill, l: Link, position: int) {
    0 <= position < |x.projects| && l == Link(x.projects[position], x.node.key, "DEMONSTRATES")
  }

  /** What a document asks for: every record and part as a node, every part linked to its owner, and every remark to
      what it is about and every project to the skill it shows, where both are there. */
  ghost predicate Planned(d: Document, op: Op) {
    match op
    case Upsert(x) =>
      || (exists i :: 0 <= i < |d.skills| && d.skills[i].node == x)
      || OwnedSeed(d.projects, x) || OwnedSeed(d.experience, x)
      || (exists i :: 0 <= i < |d.achievements| && d.achievements[i].node == x)
      || (exists i :: 0 <= i < |d.facts| && d.facts[i].node == x)
      || d.education == Some(x) || x in d.links
    case Bind(l, position) =>
      PartLink(d.projects, "HAS_METRIC", l, position) || PartLink(d.experience, "HAS_RESPONSIBILITY", l, position)
    case BindIfExists(l, position) =>
      || (position == 0 && (AboutLink(d.achievements, l) || AboutLink(d.facts, l)))
      || AnyShows(d.skills, l, position)
  }

  lemma {:induction false} SkillOpsExactly(skills: seq<Skill>, op: Op)
    ensures op in SkillOps(skills) <==> exists i :: 0 <= i < |skills| && op == Upsert(skills[i].node)
  {
    if skills != [] {
      SkillOpsExactly(skills[..|skills| - 1], op);
    }
  }

  lemma {:induction false} PartOpsExactly(owner: Key, parts: seq<Seed>, relation: string, op: Op)
    ensures op in PartOps(owner, parts, relation) <==>
      (op.Upsert? && op.seed in parts)
      || (op.Bind? && 0 <= op.position < |parts| && op.link == Link(owner, parts[op.position].key, relation))
  {
    if parts != [] {
      var n := |parts| - 1;
      PartOpsExactly(owner, parts[..n], relation, op);
      assert parts == parts[..n] + [parts[n]];
    }
  }

  lemma {:induction false} OwnerOpsExactly(owners: seq<Owner>, relation: string, op: Op)
    ensures op in OwnerOps(owners, relation) <==>
      match op
      case Upsert(x) => OwnedSeed(owners, x)
      case Bind(l, position) => PartLink(owners, relation, l, position)
      case BindIfExists(_, _) => false
  {
    if owners != [] {
      var n := |owners| - 1;
      OwnerOpsExactly(owners[..n], relation, op);
      PartOpsExactly(owners[n].node.key, owners[n].parts, relation, op);
      match op
      case Upsert(x) =>
        assert OwnedSeed(owners, x) <==> OwnedSeed(owners[..n], x) || owners[n].node == x || x in owners[n].parts;
      case Bind(l, position) =>
        assert PartLink(owners, relation, l, position)
          <==> PartLink(owners[..n], relation, l, position) || LinksPart(owners[n], relation, l, position);
      case BindIfExists(_, _) =>
    }
  }

  lemma {:induction false} RemarkOpsExactly(remarks: seq<Remark>, op: Op)
    ensures op in RemarkOps(remarks) <==>
      match op
      case Upsert(x) => exists i :: 0 <= i < |remarks| && remarks[i].node == x
      case Bind(_, _) => false
      case BindIfExists(l, position) => position == 0 && AboutLink(remarks, l)
  {
    if remarks != [] {
      var n := |remarks| - 1;
      RemarkOpsExactly(remarks[..n], op);
      if op.BindIfExists? {
        assert AboutLink(remarks, op.link) <==>
          AboutLink(remarks[..n], op.link)
          || (remarks[n].about == Some(op.link.to) && op.link.from == remarks[n].node.key
              && op.link.relation == "ABOUT");
      }
    }
  }

  lemma {:induction false} ShownInExactly(skill: Key, projects: seq<Key>, op: Op)
    ensures op in ShownIn(skill, projects) <==>
      op.BindIfExists? && 0 <= op.position < |projects|
      && op.link == Link(projects[op.position], skill, "DEMONSTRATES")
  {
    if projects != [] {
      ShownInExactly(skill, projects[..|projects| - 1], op);
    }
  }

  predicate AnyShows(skills: seq<Skill>, l: Link, position: int) {
    exists i :: 0 <= i < |skills| && ShowsSkill(skills[i], l, position)
  }

  lemma SkillShown(skills: seq<Skill>, l: Link, position: int)
    requires skills != []
    ensures var n := |skills| - 1;
      AnyShows(skills, l, position) <==> AnyShows(skills[..n], l, position) || ShowsSkill(skills[n], l, position)
  {
    var n := |skills| - 1;
    if AnyShows(skills[..n], l, position) {
      var i :| 0 <= i < n && ShowsSkill(skills[..n][i], l, position);
      assert ShowsSkill(skills[i], l, position);
    }
  }

  lemma {:induction false} DemonstratesOpsExactly(skills: seq<Skill>, op: Op)
    ensures op in DemonstratesOps(skills) <==> op.BindIfExists? && AnyShows(skills, op.link, op.position)
  {
    if skills != [] {
      var n := |skills| - 1;
      DemonstratesOpsExactly(skills[..n], op);
      ShownInExactly(skills[n].node.key, skills[n].projects, op);
      if op.BindIfExists? {
        SkillShown(skills, op.link, op.position);
      }
    }
  }

  lemma {:induction false} SeedOpsExactly(seeds: seq<Seed>, op: Op)
    ensures op in SeedOps(seeds) <==> op.Upsert? && op.seed in seeds
  {
    if seeds != [] {
      var n := |seeds| - 1;
      SeedOpsExactly(seeds[..n], op);
      assert seeds == seeds[..n] + [seeds[n]];
    }
  }

  /** The plan of a document holds exactly the steps that the document asks for. */
  lemma PlanExactly(d: Document, op: Op)
    ensures op in PlanOf(d) <==> Planned(d, op)
  {
    SkillOpsExactly(d.skills, op);
    OwnerOpsExactly(d.projects, "HAS_METRIC", op);
    OwnerOpsExactly(d.experience, "HAS_RESPONSIBILITY", op);
    RemarkOpsExactly(d.achievements, op);
    RemarkOpsExactly(d.facts, op);
    DemonstratesOpsExactly(d.skills, op);
    SeedOpsExactly(d.links, op);
  }

  datatype ProfileReport = NoProfile | Profile(action: ProfileAction)

  /** `_import_profile`: skipped when the hash is known, unless forced. */
  function ImportProfile(s: Store, p: Option<ProfileSeed>, cfg: Settings): Option<(Store, ProfileReport)> {
    if p.None? then Some((s, NoProfile))
    else if s.profile.Some? && s.profile.value.hash == Some(p.value.hash) && !cfg.force
      then Some((s, Profile(ProfileSkipped)))
    else
      var r := UpsertProfile(s, p.value.fields, p.value.preferences, Some(p.value.hash));
      if r.None? then None else Some((r.value.0, Profile(r.value.1)))
  }

  /** `import_data`: the profile, then the plan; None when a step raises and everything is rolled back. */
  function ImportDocument(d: Document, s: Store, cfg: Settings): Option<(ProfileReport, Run)> {
    var p := ImportProfile(s, d.profile, cfg);
    if p.None? then None
    else
      var r := Import(PlanOf(d), p.value.0, cfg);
      if r.None? then None else Some((p.value.1, r.value))
  }

  lemma {:induction false} PlanKeepsProfile(plan: seq<Op>, s: Store, cfg: Settings)
    requires Import(plan, s, cfg).Some?
    ensures Import(plan, s, cfg).value.store.profile == s.profile
  {
    if plan != [] {
      PlanKeepsProfile(plan[..|plan| - 1], s, cfg);
      StepStore(Import(plan[..|plan| - 1], s, cfg).value, plan[|plan| - 1], cfg);
    }
  }

  /** IDEMPOTENCE. Importing a document whose keys have one hash each a second time, unforced and after any edits
      by people, creates and updates nothing, reports the profile and every key skipped, keeps the profile and
      every node but its order, and is silent exactly when every link whose ends exist is there already. */
  lemma SecondDocumentImportIsQuiet(d: Document, s: Store, cfg: Settings, edited: Store, again: Settings)
    requires ImportDocument(d, s, cfg).Some? && Edited(ImportDocument(d, s, cfg).value.1.store, edited)
    requires Uniform(PlanOf(d)) && !again.force
    ensures ImportDocument(d, edited, again).Some?
    ensures var (report, r) := ImportDocument(d, edited, again).value;
      && (report == if d.profile.Some? then Profile(ProfileSkipped) else NoProfile) && r.store.profile == edited.profile
      && r.created == [] && r.updated == [] && r.skipped == Keys(PlanOf(d)) && Untouched(edited, r.store)
      && (r.store.log == edited.log <==> QuietLinks(PlanOf(d), |PlanOf(d)|, edited))
  {
    var first := ImportProfile(s, d.profile, cfg).value.0;
    PlanKeepsProfile(PlanOf(d), first, cfg);
    if d.profile.Some? { ProfileIsRecorded(d.profile, s, cfg); }
    assert ImportProfile(edited, d.profile, again)
      == Some((edited, if d.profile.Some? then Profile(ProfileSkipped) else NoProfile));
    SecondImportIsQuiet(PlanOf(d), first, cfg, edited, again);
  }

  lemma ProfileIsRecorded(p: Option<ProfileSeed>, s: Store, cfg: Settings)
    requires p.Some? && ImportProfile(s, p, cfg).Some?
    ensures var row := ImportProfile(s, p, cfg).value.0.profile; row.Some? && row.value.hash == Some(p.value.hash)
  {
  }

  /** A document import keeps the truth rules and the trail, apart from the sort order. */
  lemma DocumentKeepsTrail(d: Document, s: Store, cfg: Settings)
    requires Audited(s, false) && ImportDocument(d, s, cfg).Some?
    ensures Audited(ImportDocument(d, s, cfg).value.1.store, false)
  {
    var first := ImportProfile(s, d.profile, cfg).value.0;
    if d.profile.Some? && first != s {
      ProfileKeepsAudited(s, d.profile.value.fields, d.profile.value.preferences, Some(d.profile.value.hash), false);
    }
    ImportKeepsTrail(PlanOf(d), first, cfg);
  }

  // ------------------------------------------------------- a document that is not quiet

  function PlainFact(key: Key): Seed {
    Seed(key, NodeData(Evidence.Content("FACT", key, key, "", 1, "SEED_FILE", "", ""), Unverified, None, None, 0), key)
  }

  /** Two facts, the first about the second. */
  const ForwardDocument :=
    Document(None, [], [], [], [], [Remark(PlainFact("f1"), Some("f2")), Remark(PlainFact("f2"), None)], None, [])

  lemma ForwardPlan()
    ensures PlanOf(ForwardDocument)
      == [Upsert(PlainFact("f1")), BindIfExists(Link("f1", "f2", "ABOUT"), 0), Upsert(PlainFact("f2"))]
  {
    var facts := ForwardDocument.facts;
    assert PlanOf(ForwardDocument) == RemarkOps(facts);
    assert facts[..1][..0] == [] && facts[..1][0] == Remark(PlainFact("f1"), Some("f2"));
    assert RemarkOps(facts[..1]) == [Upsert(PlainFact("f1")), BindIfExists(Link("f1", "f2", "ABOUT"), 0)];
  }

  /** A fact that refers to a node imported after it gets its relationship only on the second import, which
      then writes an audit event although the file is unchanged and all its keys are distinct. */
  lemma ForwardReferenceIsLinkedLate(cfg: Settings)
    requires !cfg.force
    ensures var plan := PlanOf(ForwardDocument);
      && Uniform(plan) && Import(plan, EMPTY, cfg).Some?
      && (var done := Import(plan, EMPTY, cfg).value.store;
          var again := Import(plan, done, cfg);
          again.Some? && again.value.linked > 0 && again.value.store.log != done.log)
  {
    ForwardPlan();
    var plan := PlanOf(ForwardDocument);
    ForwardImports(plan, cfg);
    var l := Link("f1", "f2", "ABOUT");
    KeysOfForward(plan);
    assert EndsExist(plan, |plan|, EMPTY, l);
    forall j ensures !Makes(plan, j, EMPTY, l) {
      assert plan[..1][..0] == [];
    }
    assert plan[1].link == l;
    assert !Settled(plan, EMPTY);
    var done := Import(plan, EMPTY, cfg).value.store;
    SecondImportIsQuiet(plan, EMPTY, cfg, done, cfg);
    QuietExactlyWhenSettled(plan, EMPTY, cfg, done);
  }

  lemma KeysOfForward(plan: seq<Op>)
    requires plan == [Upsert(PlainFact("f1")), BindIfExists(Link("f1", "f2", "ABOUT"), 0), Upsert(PlainFact("f2"))]
    ensures Keys(plan[..3]) == ["f1", "f2"] && Keys(plan[..1]) == ["f1"] && Uniform(plan)
  {
    assert plan[..3][..2] == plan[..2] && plan[..2][..1] == plan[..1] && plan[..1][..0] == [];
    assert plan[..3] == plan;
    assert Keys(plan[..1]) == ["f1"];
    assert Keys(plan[..2]) == ["f1"];
    assert LastHash(plan, "f2") == Some("f2");
    assert LastHash(plan[..1], "f1") == Some("f1");
    assert LastHash(plan[..2], "f1") == Some("f1");
    assert LastHash(plan, "f1") == Some("f1");
  }

  lemma ForwardImports(plan: seq<Op>, cfg: Settings)
    requires plan == [Upsert(PlainFact("f1")), BindIfExists(Link("f1", "f2", "ABOUT"), 0), Upsert(PlainFact("f2"))]
    ensures Import(plan, EMPTY, cfg).Some?
  {
    assert plan[..2][..1] == plan[..1] && plan[..1][..0] == [];
    var r0 := Run(EMPTY, 0, [], [], [], 0);
    assert Import(plan[..1], EMPTY, cfg) == UpsertStep(r0, PlainFact("f1"), cfg);
    var r1 := UpsertStep(r0, PlainFact("f1"), cfg).value;
    assert "f2" !in r1.store.nodes;
    assert Import(plan[..2], EMPTY, cfg) == Some(r1);
  }

  // ---------------------------------------------------------- as it is written

  /** One import. `failed` stands for an exception on its way out: nothing more is done after it. */
  class SeedImporter {
    const repo: EvidenceRepository
    const cfg: Settings
    var order: nat
    var created: seq<Key>
    var updated: seq<Key>
    var skipped: seq<Key>
    var linked: nat
    var failed: bool

    constructor (repo: EvidenceRepository, cfg: Settings)
      ensures this.repo == repo && this.cfg == cfg
      ensures Outcome() == Some(Run(repo.store, 0, [], [], [], 0))
    {
      this.repo, this.cfg := repo, cfg;
      order, created, updated, skipped, linked, failed := 0, [], [], [], 0, false;
    }

    /** The run so far; None once a step has raised. */
    ghost function Outcome(): Option<Run>
      reads this, repo
    {
      if failed then None else Some(Run(repo.store, order, created, updated, skipped, linked))
    }

    method UpsertSeed(x: Seed)
      modifies this, repo
      ensures Outcome() == Next(old(Outcome()), Upsert(x), cfg)
    {
      if failed { return; }
      var next := order + 1;
      if x.key !in repo.store.nodes {
        var ok := repo.CreateNode(x.key, x.data.(order := next), cfg.actor, Some(x.hash), cfg.now);
        created := created + [x.key];
        failed := !ok;
      } else if repo.store.nodes[x.key].hash == Some(x.hash) && !cfg.force {
        var row := repo.store.nodes[x.key];
        if row.node.order != next {
          row := row.(node := row.node.(order := next));
        }
        repo.store := repo.store.(nodes := repo.store.nodes[x.key := row]);
        skipped := skipped + [x.key];
      } else {
        var ok := repo.UpdateNode(x.key, ChangeTo(x.data, next), cfg.actor, Some(x.hash), cfg.now);
        updated := updated + [x.key];
        failed := !ok;
      }
      order := next;
    }

    method LinkNodes(l: Link, position: int)
      modifies this, repo
      ensures Outcome() == Next(old(Outcome()), Bind(l, position), cfg)
    {
      if failed { return; }
      var found, isNew := repo.AddRelationship(l, position);
      failed := !found;
      if isNew { linked := linked + 1; }
    }

    method LinkIfExists(l: Link, position: int)
      modifies this, repo
      ensures Outcome() == Next(old(Outcome()), BindIfExists(l, position), cfg)
    {
      if failed || l.from !in repo.store.nodes || l.to !in repo.store.nodes { return; }
      var found, isNew := repo.AddRelationship(l, position);
      if isNew { linked := linked + 1; }
    }

    method ImportOwners(owners: seq<Owner>, relation: string)
      modifies this, repo
      ensures Outcome() == Continued(old(Outcome()), OwnerOps(owners, relation), cfg)
    {
      ghost var r := Outcome();
      for i := 0 to |owners|
        invariant Outcome() == Continued(r, OwnerOps(owners[..i], relation), cfg)
      {
        assert owners[..i + 1][..i] == owners[..i];
        ContinuedTwice(r, OwnerOps(owners[..i], relation), OwnerOp(owners[i], relation), cfg);
        ImportOwner(owners[i], relation);
      }
      assert owners[..|owners|] == owners;
    }

    method ImportOwner(o: Owner, relation: string)
      modifies this, repo
      ensures Outcome() == Continued(old(Outcome()), OwnerOp(o, relation), cfg)
    {
      ContinuedTwice(Outcome(), [Upsert(o.node)], PartOps(o.node.key, o.parts, relation), cfg);
      ContinuedOnce(Outcome(), [], Upsert(o.node), cfg);
      assert [] + [Upsert(o.node)] == [Upsert(o.node)];
      UpsertSeed(o.node);
      ImportParts(o.node.key, o.parts, relation);
    }

    method ImportParts(owner: Key, parts: seq<Seed>, relation: string)
      modifies this, repo
      ensures Outcome() == Continued(old(Outcome()), PartOps(owner, parts, relation), cfg)
    {
      ghost var r := Outcome();
      for j := 0 to |parts|
        invariant Outcome() == Continued(r, PartOps(owner, parts[..j], relation), cfg)
      {
        assert parts[..j + 1][..j] == parts[..j];
        ghost var before := PartOps(owner, parts[..j], relation);
        ContinuedOnce(r, before, Upsert(parts[j]), cfg);
        ContinuedOnce(r, before + [Upsert(parts[j])], Bind(Link(owner, parts[j].key, relation), j), cfg);
        UpsertSeed(parts[j]);
        LinkNodes(Link(owner, parts[j].key, relation), j);
      }
      assert parts[..|parts|] == parts;
    }

    method ImportRemarks(remarks: seq<Remark>)
      modifies this, repo
      ensures Outcome() == Continued(old(Outcome()), RemarkOps(remarks), cfg)
    {
      ghost var r := Outcome();
      for i := 0 to |remarks|
        invariant Outcome() == Continued(r, RemarkOps(remarks[..i]), cfg)
      {
        assert remarks[..i + 1][..i] == remarks[..i];
        ContinuedTwice(r, RemarkOps(remarks[..i]), RemarkOp(remarks[i]), cfg);
        ImportRemark(remarks[i]);
      }
      assert remarks[..|remarks|] == remarks;
    }

    method ImportRemark(x: Remark)
      modifies this, repo
      ensures Outcome() == Continued(old(Outcome()), RemarkOp(x), cfg)
    {
      ghost var r := Outcome();
      ContinuedOnce(r, [], Upsert(x.node), cfg);
      assert [] + [Upsert(x.node)] == [Upsert(x.node)];
      UpsertSeed(x.node);
      if x.about.Some? {
        ContinuedOnce(r, [Upsert(x.node)], BindIfExists(Link(x.node.key, x.about.value, "ABOUT"), 0), cfg);
        LinkIfExists(Link(x.node.key, x.about.value, "ABOUT"), 0);
      }
    }

    method ImportSkills(skills: seq<Skill>)
      modifies this, repo
      ensures Outcome() == Continued(old(Outcome()), SkillOps(skills), cfg)
    {
      ghost var r := Outcome();
      for i := 0 to |skills|
        invariant Outcome() == Continued(r, SkillOps(skills[..i]), cfg)
      {
        assert skills[..i + 1][..i] == skills[..i];
        ContinuedOnce(r, SkillOps(skills[..i]), Upsert(skills[i].node), cfg);
        UpsertSeed(skills[i].node);
      }
      assert skills[..|skills|] == skills;
    }

    method LinkSkills(skills: seq<Skill>)
      modifies this, repo
      ensures Outcome() == Continued(old(Outcome()), DemonstratesOps(skills), cfg)
    {
      ghost var r := Outcome();
      for i := 0 to |skills|
        invariant Outcome() == Continued(r, DemonstratesOps(skills[..i]), cfg)
      {
        assert skills[..i + 1][..i] == skills[..i];
        ContinuedTwice(r, DemonstratesOps(skills[..i]), ShownIn(skills[i].node.key, skills[i].projects), cfg);
        LinkProjects(skills[i].node.key, skills[i].projects);
      }
      assert skills[..|skills|] == skills;
    }

    method LinkProjects(skill: Key, projects: seq<Key>)
      modifies this, repo
      ensures Outcome() == Continued(old(Outcome()), ShownIn(skill, projects), cfg)
    {
      ghost var r := Outcome();
      for j := 0 to |projects|
        invariant Outcome() == Continued(r, ShownIn(skill, projects[..j]), cfg)
      {
        assert projects[..j + 1][..j] == projects[..j];
        ContinuedOnce(r, ShownIn(skill, projects[..j]), BindIfExists(Link(projects[j], skill, "DEMONSTRATES"), j), cfg);
        LinkIfExists(Link(projects[j], skill, "DEMONSTRATES"), j);
      }
      assert projects[..|projects|] == projects;
    }

    method ImportSeeds(seeds: seq<Seed>)
      modifies this, repo
      ensures Outcome() == Continued(old(Outcome()), SeedOps(seeds), cfg)
    {
      ghost var r := Outcome();
      for i := 0 to |seeds|
        invariant Outcome() == Continued(r, SeedOps(seeds[..i]), cfg)
      {
        assert seeds[..i + 1][..i] == seeds[..i];
        ContinuedOnce(r, SeedOps(seeds[..i]), Upsert(seeds[i]), cfg);
        UpsertSeed(seeds[i]);
      }
      assert seeds[..|seeds|] == seeds;
    }

    method ImportProfileSeed(p: Option<ProfileSeed>) returns (report: Option<ProfileReport>)
      modifies repo
      ensures (if report.Some? then Some((repo.store, report.value)) else None)
        == ImportProfile(old(repo.store), p, cfg)
      ensures report.None? ==> repo.store == old(repo.store)
    {
      if p.None? { return Some(NoProfile); }
      var row := repo.store.profile;
      if row.Some? && row.value.hash == Some(p.value.hash) && !cfg.force { return Some(Profile(ProfileSkipped)); }
      var action := repo.UpsertProfileRow(p.value.fields, p.value.preferences, Some(p.value.hash));
      return if action.Some? then Some(Profile(action.value)) else None;
    }

    /** `import_data`: the profile and the whole plan of the document, or a rollback. */
    method ImportData(d: Document) returns (report: Option<ProfileReport>)
      requires Outcome() == Some(Run(repo.store, 0, [], [], [], 0))
      modifies this, repo
      ensures ImportDocument(d, old(repo.store), cfg)
        == if report.Some? && Outcome().Some? then Some((report.value, Outcome().value)) else None
      ensures report.None? ==> repo.store == old(repo.store)
    {
      var before := repo.store;
      report := ImportProfileSeed(d.profile);
      if report.None? { return; }
      ImportContinues(PlanOf(d), repo.store, cfg);
      ContinuedTwice(Outcome(), RecordOps(d), ClosingOps(d), cfg);
      ImportRecords(d);
      ImportClosing(d);
      if failed {
        repo.store := before;
        report := None;
      }
    }

    method ImportRecords(d: Document)
      modifies this, repo
      ensures Outcome() == Continued(old(Outcome()), RecordOps(d), cfg)
    {
      ghost var r := Outcome();
      ContinuedTwice(r, SkillOps(d.skills), WorkOps(d) + StatementOps(d), cfg);
      ContinuedTwice(Continued(r, SkillOps(d.skills), cfg), WorkOps(d), StatementOps(d), cfg);
      ImportSkills(d.skills);
      ImportWork(d);
      ImportStatements(d);
    }

    method ImportStatements(d: Document)
      modifies this, repo
      ensures Outcome() == Continued(old(Outcome()), StatementOps(d), cfg)
    {
      ContinuedTwice(Outcome(), RemarkOps(d.achievements), RemarkOps(d.facts), cfg);
      ImportRemarks(d.achievements);
      ImportRemarks(d.facts);
    }

    method ImportWork(d: Document)
      modifies this, repo
      ensures Outcome() == Continued(old(Outcome()), WorkOps(d), cfg)
    {
      ContinuedTwice(Outcome(), OwnerOps(d.projects, "HAS_METRIC"), OwnerOps(d.experience, "HAS_RESPONSIBILITY"), cfg);
      ImportOwners(d.projects, "HAS_METRIC");
      ImportOwners(d.experience, "HAS_RESPONSIBILITY");
    }

    method ImportClosing(d: Document)
      modifies this, repo
      ensures Outcome() == Continued(old(Outcome()), ClosingOps(d), cfg)
    {
      ghost var r := Outcome();
      ContinuedTwice(r, DemonstratesOps(d.skills), EducationOps(d) + SeedOps(d.links), cfg);
      ContinuedTwice(Continued(r, DemonstratesOps(d.skills), cfg), EducationOps(d), SeedOps(d.links), cfg);
      LinkSkills(d.skills);
      ImportEducation(d);
      ImportSeeds(d.links);
    }

    method ImportEducation(d: Document)
      modifies this, repo
      ensures Outcome() == Continued(old(Outcome()), EducationOps(d), cfg)
    {
      if d.education.Some? {
        ContinuedOnce(Outcome(), [], Upsert(d.education.value), cfg);
        assert [] + [Upsert(d.education.value)] == [Upsert(d.education.value)];
        UpsertSeed(d.education.value);
      }
    }
  }
}
