/** The one-shot migration of the skills directory: the inventory, the moves, and what a run does. */
module Migration {
  import opened Wrappers

  type Path = seq<string>

  datatype Object = File(content: string) | Dir

  type Files = map<Path, Object>

  /** Everything has directories above it, and no name is empty. */
  ghost predicate Tree(fs: Files) {
    forall p, k :: p in fs && 0 <= k < |p| ==> p[..k] in fs && fs[p[..k]] == Dir && p[k] != ""
  }

  /**
   What the script sees: the files, the order in which a set of names is listed, and whether the
   text of a `skill.md` declares an agent.
   */
  datatype World = World(fs: Files, order: set<string> -> seq<string>, agent: string -> bool)

  /** A listing names every entry exactly once. */
  ghost predicate Lists(order: set<string> -> seq<string>) {
    forall s :: (forall name :: name in order(s) <==> name in s)
      && (forall i, j :: 0 <= i < j < |order(s)| ==> order(s)[i] != order(s)[j])
  }

  const SKILLS := "skills"
  const AGENTS := "agents"
  const NATIVE := "native"
  const COMMUNITY := "community"
  const TENANT := "tenant_"
  const SKILL_FILE := "skill.md"
  const ORPHAN := "271e5a66-48cc-4885-b55b-cf5b5981b67e"
  const RESERVED: set<string> := {"_bundled", "_tenant", "_archive"}
  const AGENT_SLUGS: set<string> := {"luna", "integral-business-support", "integral-devops", "integral-sre"}

  /** A directory the inventory looks at. */
  datatype Place = Top(name: string) | Native(slug: string) | Tenant(name: string, slug: string)

  datatype Target =
    | Community
    | OrphanTenant
    | Duplicate(name: string)
    | LegacyNested(slug: string)
    | Bundled(agent: bool, slug: string)
    | OfTenant(agent: bool, uuid: string, slug: string)

  datatype Step = Step(at: Place, to: Target)

  datatype Kind = Agents | Skills | Archives

  function PathOf(at: Place): Path {
    match at
    case Top(name) => [SKILLS, name]
    case Native(slug) => [SKILLS, NATIVE, slug]
    case Tenant(name, slug) => [SKILLS, name, slug]
  }

  /** An empty tenant suffix adds no path component. */
  function PathTo(to: Target): Path {
    match to
    case Community => [SKILLS, "_archive", COMMUNITY]
    case OrphanTenant => [SKILLS, "_archive", "orphan_tenants", ORPHAN]
    case Duplicate(name) => [SKILLS, "_archive", "_top_level_dups", name]
    case LegacyNested(slug) => [SKILLS, "_archive", "_legacy_nested", slug]
    case Bundled(agent, slug) => [if agent then AGENTS else SKILLS, "_bundled", slug]
    case OfTenant(agent, uuid, slug) =>
      if uuid == "" then [if agent then AGENTS else SKILLS, "_tenant", slug]
      else [if agent then AGENTS else SKILLS, "_tenant", uuid, slug]
  }

  function KindOf(to: Target): Kind {
    if to.Bundled? || to.OfTenant? then (if to.agent then Agents else Skills) else Archives
  }

  predicate IsDir(fs: Files, p: Path) {
    p in fs && fs[p] == Dir
  }

  function Children(fs: Files, dir: Path): set<string> {
    set p | p in fs && |p| == |dir| + 1 && dir < p :: p[|dir|]
  }

  predicate HasSkill(w: World, at: Place) {
    PathOf(at) + [SKILL_FILE] in w.fs
  }

  predicate IsAgent(w: World, at: Place) {
    var p := PathOf(at) + [SKILL_FILE];
    p in w.fs && w.fs[p].File? && w.agent(w.fs[p].content)
  }

  predicate IsTenant(name: string) {
    TENANT <= name
  }

  function Suffix(name: string): string
    requires IsTenant(name)
  {
    name[|TENANT|..]
  }

  // ---- The inventory ----

  /** Where one directory goes, if anywhere. */
  function Decide(w: World, at: Place): Option<Target> {
    if !IsDir(w.fs, PathOf(at)) then None
    else match at
      case Top(name) =>
        if name in RESERVED || name == NATIVE then None
        else if name == COMMUNITY then Some(Community)
        else if IsTenant(name) then (if Suffix(name) == ORPHAN then Some(OrphanTenant) else None)
        else if !HasSkill(w, at) then None
        else if IsDir(w.fs, PathOf(Native(name))) then Some(Duplicate(name))
        else Some(Bundled(IsAgent(w, at), name))
      case Native(slug) =>
        if slug in {NATIVE, COMMUNITY} || IsTenant(slug) then Some(LegacyNested(slug))
        else if !HasSkill(w, at) then None
        else Some(Bundled(slug in AGENT_SLUGS || IsAgent(w, at), slug))
      case Tenant(name, slug) =>
        if !IsTenant(name) || Suffix(name) == ORPHAN || !HasSkill(w, at) then None
        else Some(OfTenant(IsAgent(w, at), Suffix(name), slug))
  }

  function StepsAt(w: World, at: Place): seq<Step> {
    match Decide(w, at)
    case None => []
    case Some(to) => [Step(at, to)]
  }

  function Inside(name: string, slug: string): Place {
    if name == NATIVE then Native(slug) else Tenant(name, slug)
  }

  function InnerSteps(w: World, name: string, slugs: seq<string>): seq<Step> {
    if slugs == [] then []
    else InnerSteps(w, name, slugs[..|slugs| - 1]) + StepsAt(w, Inside(name, slugs[|slugs| - 1]))
  }

  /** What the loop over the top level finds at one entry. */
  function EntrySteps(w: World, name: string): seq<Step> {
    if !IsDir(w.fs, [SKILLS, name]) then []
    else if name == NATIVE || (IsTenant(name) && Suffix(name) != ORPHAN) then
      InnerSteps(w, name, w.order(Children(w.fs, [SKILLS, name])))
    else StepsAt(w, Top(name))
  }

  function TopSteps(w: World, names: seq<string>): seq<Step> {
    if names == [] then [] else TopSteps(w, names[..|names| - 1]) + EntrySteps(w, names[|names| - 1])
  }

  function OfKind(kind: Kind, steps: seq<Step>): seq<Step> {
    if steps == [] then []
    else
      var last := steps[|steps| - 1];
      OfKind(kind, steps[..|steps| - 1]) + (if KindOf(last.to) == kind then [last] else [])
  }

  function Found(w: World): seq<Step> {
    TopSteps(w, w.order(Children(w.fs, [SKILLS])))
  }

  /** The order in which the moves are made: agents, then skills, then archives. */
  function Plan(w: World): seq<Step> {
    OfKind(Agents, Found(w)) + OfKind(Skills, Found(w)) + OfKind(Archives, Found(w))
  }

  function Entry(at: Place): string {
    match at
    case Top(name) => name
    case Native(_) => NATIVE
    case Tenant(name, _) => name
  }

  lemma TenantIsNotNative(name: string)
    requires IsTenant(name)
    ensures name != NATIVE && name != COMMUNITY && name !in RESERVED
  {
    assert name[0] == 't' && name[1] == 'e';
  }

  lemma {:induction false} InKind(kind: Kind, steps: seq<Step>, s: Step)
    ensures s in OfKind(kind, steps) <==> s in steps && KindOf(s.to) == kind
  {
    if steps != [] {
      InKind(kind, steps[..|steps| - 1], s);
      assert steps == steps[..|steps| - 1] + [steps[|steps| - 1]];
    }
  }

  lemma {:induction false} InInner(w: World, name: string, slugs: seq<string>, s: Step)
    ensures s in InnerSteps(w, name, slugs) <==>
      Decide(w, s.at) == Some(s.to) && exists slug :: slug in slugs && s.at == Inside(name, slug)
  {
    hide Decide;
    if slugs != [] {
      InInner(w, name, slugs[..|slugs| - 1], s);
      assert slugs == slugs[..|slugs| - 1] + [slugs[|slugs| - 1]];
    }
  }

  lemma {:induction false} InTop(w: World, names: seq<string>, s: Step)
    ensures s in TopSteps(w, names) <==> exists name :: name in names && s in EntrySteps(w, name)
  {
    hide EntrySteps;
    if names != [] {
      InTop(w, names[..|names| - 1], s);
      assert names == names[..|names| - 1] + [names[|names| - 1]];
    }
  }

  lemma ChildExists(fs: Files, dir: Path, name: string)
    ensures name in Children(fs, dir) <==> dir + [name] in fs
  {
    if dir + [name] in fs {
      assert (dir + [name])[|dir|] == name;
    }
    if name in Children(fs, dir) {
      var p :| p in fs && |p| == |dir| + 1 && dir < p && p[|dir|] == name;
      assert p == dir + [name];
    }
  }

  lemma ParentExists(fs: Files, p: Path)
    requires Tree(fs) && p in fs && p != []
    ensures IsDir(fs, p[..|p| - 1])
  {
  }

  /** What is decided for a directory shows up under its top-level entry, and nothing else does. */
  lemma EntryIsDecided(w: World, name: string, s: Step)
    requires Tree(w.fs) && Lists(w.order)
    ensures s in EntrySteps(w, name) <==> Decide(w, s.at) == Some(s.to) && Entry(s.at) == name
  {
    hide Tree, InnerSteps, HasSkill, IsAgent, Lists, Children;
    if name == NATIVE || (IsTenant(name) && Suffix(name) != ORPHAN) {
      InnerIsDecided(w, name, s);
    } else if Decide(w, s.at) == Some(s.to) && Entry(s.at) == name {
      assert s.at == Top(name);
    }
  }

  lemma InnerIsDecided(w: World, name: string, s: Step)
    requires Tree(w.fs) && Lists(w.order) && (name == NATIVE || (IsTenant(name) && Suffix(name) != ORPHAN))
    ensures s in EntrySteps(w, name) <==> Decide(w, s.at) == Some(s.to) && Entry(s.at) == name
  {
    hide Children, HasSkill, IsAgent, Tree;
    var dir := [SKILLS, name];
    var slugs := w.order(Children(w.fs, dir));
    InInner(w, name, slugs, s);
    if IsTenant(name) {
      TenantIsNotNative(name);
    }
    if Decide(w, s.at) == Some(s.to) && Entry(s.at) == name {
      assert !s.at.Top?;
      ParentExists(w.fs, PathOf(s.at));
      assert PathOf(s.at) == dir + [s.at.slug];
      assert PathOf(s.at)[..2] == dir;
      ChildExists(w.fs, dir, s.at.slug);
      assert s.at == Inside(name, s.at.slug);
    }
  }

  /** The plan is exactly what is decided for the directories one by one. */
  lemma PlanIsDecided(w: World, s: Step)
    requires Tree(w.fs) && Lists(w.order)
    ensures s in Plan(w) <==> Decide(w, s.at) == Some(s.to)
  {
    hide EntrySteps, Decide, Children, Tree;
    InKind(Agents, Found(w), s);
    InKind(Skills, Found(w), s);
    InKind(Archives, Found(w), s);
    var names := w.order(Children(w.fs, [SKILLS]));
    InTop(w, names, s);
    if Decide(w, s.at) == Some(s.to) {
      EntryExists(w, s.at);
      EntryIsDecided(w, Entry(s.at), s);
    }
    if name :| name in names && s in EntrySteps(w, name) {
      EntryIsDecided(w, name, s);
    }
  }

  lemma EntryExists(w: World, at: Place)
    requires Tree(w.fs) && Decide(w, at).Some?
    ensures Entry(at) in Children(w.fs, [SKILLS])
  {
    hide Tree, HasSkill, IsAgent, Children;
    var dir := [SKILLS, Entry(at)];
    if !at.Top? {
      ParentExists(w.fs, PathOf(at));
      assert PathOf(at)[..2] == dir;
    }
    ChildExists(w.fs, [SKILLS], Entry(at));
    assert [SKILLS] + [Entry(at)] == dir;
  }

  /** The `skill.md` of a directory declares an agent. */
  predicate Declares(w: World, dir: Path) {
    dir + ["skill.md"] in w.fs && w.fs[dir + ["skill.md"]].File? && w.agent(w.fs[dir + ["skill.md"]].content)
  }

  /** The top of the new layout a directory belongs under. */
  function Root(agent: bool): string {
    if agent then "agents" else "skills"
  }

  /** Where the inventory sends a directory, path by path. */
  function Destination(w: World, dir: Path): Option<Path> {
    if !IsDir(w.fs, dir) || |dir| < 2 || dir[0] != "skills" || dir[1] in {"_bundled", "_tenant", "_archive"} then None
    else if |dir| == 2 then
      var name := dir[1];
      if name == "community" then Some(["skills", "_archive", "community"])
      else if name == "tenant_271e5a66-48cc-4885-b55b-cf5b5981b67e" then
        Some(["skills", "_archive", "orphan_tenants", "271e5a66-48cc-4885-b55b-cf5b5981b67e"])
      else if name == "native" || "tenant_" <= name || dir + ["skill.md"] !in w.fs then None
      else if IsDir(w.fs, ["skills", "native", name]) then Some(["skills", "_archive", "_top_level_dups", name])
      else Some([Root(Declares(w, dir)), "_bundled", name])
    else if |dir| == 3 && dir[1] == "native" then
      var slug := dir[2];
      if slug in {"native", "community"} || "tenant_" <= slug then Some(["skills", "_archive", "_legacy_nested", slug])
      else if dir + ["skill.md"] !in w.fs then None
      else
        var agent := slug in {"luna", "integral-business-support", "integral-devops", "integral-sre"} || Declares(w, dir);
        Some([Root(agent), "_bundled", slug])
    else if |dir| == 3 && "tenant_" <= dir[1] && dir[1] != "tenant_271e5a66-48cc-4885-b55b-cf5b5981b67e"
         && dir + ["skill.md"] in w.fs then
      var uuid := dir[1][7..];
      Some([Root(Declares(w, dir)), "_tenant"] + (if uuid == "" then [] else [uuid]) + [dir[2]])
    else None
  }

  /** The plan's targets are these paths. */
  lemma DestinationsSpelledOut(w: World, at: Place)
    requires at.Tenant? ==> IsTenant(at.name)
    ensures
      match Decide(w, at)
      case None => Destination(w, PathOf(at)) == None
      case Some(to) => Destination(w, PathOf(at)) == Some(PathTo(to))
  {
    match at
    case Top(name) => TopSpelledOut(w, name);
    case Native(slug) => NativeSpelledOut(w, slug);
    case Tenant(name, slug) => TenantSpelledOut(w, name, slug);
  }

  lemma OrphanName(name: string)
    requires IsTenant(name)
    ensures name == "tenant_271e5a66-48cc-4885-b55b-cf5b5981b67e" <==> Suffix(name) == ORPHAN
    ensures Suffix(name) == name[7..]
  {
    assert |TENANT| == 7 && TENANT + ORPHAN == "tenant_271e5a66-48cc-4885-b55b-cf5b5981b67e";
    assert name == TENANT + Suffix(name);
  }

  lemma TopSpelledOut(w: World, name: string)
    ensures
      match Decide(w, Top(name))
      case None => Destination(w, ["skills", name]) == None
      case Some(to) => Destination(w, ["skills", name]) == Some(PathTo(to))
  {
    hide Suffix;
    if IsTenant(name) {
      OrphanName(name);
      TenantIsNotNative(name);
    }
    assert ORPHAN[0] == '2';
  }

  lemma NativeSpelledOut(w: World, slug: string)
    ensures
      match Decide(w, Native(slug))
      case None => Destination(w, ["skills", "native", slug]) == None
      case Some(to) => Destination(w, ["skills", "native", slug]) == Some(PathTo(to))
  {
    assert "native"[0] == 'n';
  }

  lemma TenantSpelledOut(w: World, name: string, slug: string)
    requires IsTenant(name)
    ensures
      match Decide(w, Tenant(name, slug))
      case None => Destination(w, ["skills", name, slug]) == None
      case Some(to) => Destination(w, ["skills", name, slug]) == Some(PathTo(to))
  {
    hide Suffix;
    OrphanName(name);
    TenantIsNotNative(name);
    var agent := Declares(w, ["skills", name, slug]);
    var head, uuid := [Root(agent), "_tenant"], name[7..];
    assert head + [] + [slug] == [Root(agent), "_tenant", slug];
    assert head + [uuid] + [slug] == [Root(agent), "_tenant", uuid, slug];
  }

  // ---- Destinations ----

  /** A skill called like a tenant, filed under the tenant with the empty name. */
  predicate Clash(s: Step, t: Step) {
    && s.to.OfTenant? && t.to.OfTenant?
    && s.to.uuid == "" && t.to.uuid == s.to.slug && s.to.agent == t.to.agent
  }

  predicate Named(to: Target) {
    match to
    case Duplicate(name) => name != ""
    case LegacyNested(slug) => slug != ""
    case Bundled(_, slug) => slug != ""
    case OfTenant(_, _, slug) => slug != ""
    case _ => true
  }

  lemma NamesAreNotEmpty(w: World, s: Step)
    requires Tree(w.fs) && Decide(w, s.at) == Some(s.to)
    ensures Named(s.to)
  {
    hide Tree, HasSkill, IsAgent;
    var p := PathOf(s.at);
    NotEmpty(w.fs, p, |p| - 1);
  }

  lemma NotEmpty(fs: Files, p: Path, k: nat)
    requires Tree(fs) && p in fs && k < |p|
    ensures p[k] != ""
  {
  }

  lemma PathsNest(a: Target, b: Target)
    requires Named(a) && Named(b)
    ensures PathTo(a) <= PathTo(b) <==>
      a == b || (a.OfTenant? && b.OfTenant? && a.uuid == "" && b.uuid == a.slug && a.agent == b.agent)
  {
    var p, q := PathTo(a), PathTo(b);
    if p <= q {
      assert p[0] == q[0] && p[1] == q[1] && p[2] == q[2];
      assert |p| == 4 ==> p[3] == q[3];
    }
  }

  /** Two different directories never share a destination. */
  lemma TargetsAreDistinct(w: World, s: Step, t: Step)
    requires Decide(w, s.at) == Some(s.to) && Decide(w, t.at) == Some(t.to) && s.to == t.to
    ensures s == t
  {
    if s.at.Tenant? && t.at.Tenant? {
      assert s.at.name == TENANT + Suffix(s.at.name) && t.at.name == TENANT + Suffix(t.at.name);
    } else if s.to == OrphanTenant {
      assert s.at.name == TENANT + Suffix(s.at.name) && t.at.name == TENANT + Suffix(t.at.name);
    }
  }

  /** One destination lies at or inside another exactly when they are the same or clash. */
  lemma NestedExactly(w: World, s: Step, t: Step)
    requires Tree(w.fs) && Decide(w, s.at) == Some(s.to) && Decide(w, t.at) == Some(t.to)
    ensures PathTo(s.to) <= PathTo(t.to) <==> s == t || Clash(s, t)
  {
    hide Decide, Tree;
    NamesAreNotEmpty(w, s);
    NamesAreNotEmpty(w, t);
    PathsNest(s.to, t.to);
    if s.to == t.to {
      TargetsAreDistinct(w, s, t);
    }
  }

  /** The clash is real: a skill of the nameless tenant swallows the skills of the tenant it is named like. */
  lemma NamelessTenantClashes(w: World, slug: string, inner: string)
    requires Tree(w.fs) && slug != "" && slug != ORPHAN
    requires forall at :: at in {Tenant(TENANT, slug), Tenant(TENANT + slug, inner)} ==>
      IsDir(w.fs, PathOf(at)) && HasSkill(w, at) && !IsAgent(w, at)
    ensures
      var s := Step(Tenant(TENANT, slug), OfTenant(false, "", slug));
      var t := Step(Tenant(TENANT + slug, inner), OfTenant(false, slug, inner));
      Decide(w, s.at) == Some(s.to) && Decide(w, t.at) == Some(t.to) && PathTo(s.to) < PathTo(t.to)
  {
    hide Tree;
    assert Suffix(TENANT) == "" && Suffix(TENANT + slug) == slug;
  }

  // ---- One move ----

  datatype Status = Missing | Exists | Moved | Blocked | WouldMove

  /** A file stands where a directory above the destination is needed. */
  predicate InTheWay(fs: Files, dst: Path) {
    exists k :: 0 <= k < |dst| && dst[..k] in fs && fs[dst[..k]].File?
  }

  function StatusOf(fs: Files, src: Path, dst: Path): Status {
    if src !in fs then Missing
    else if dst in fs then Exists
    else if InTheWay(fs, dst) then Blocked
    else Moved
  }

  function Shift(src: Path, dst: Path, p: Path): Path {
    if src <= p then dst + p[|src|..] else p
  }

  function Objects(fs: Files, src: Path, dst: Path, q: Path): Object {
    if dst <= q && src + q[|dst|..] in fs then fs[src + q[|dst|..]]
    else if q in fs then fs[q]
    else Dir
  }

  /** The files after a move, with the directories made above the destination. */
  function AfterMove(fs: Files, src: Path, dst: Path): Files {
    map q | q in (set p | p in fs :: Shift(src, dst, p)) + (set k | 0 <= k < |dst| :: dst[..k])
      :: Objects(fs, src, dst, q)
  }

  /** A move that can be made. */
  ghost predicate Movable(fs: Files, src: Path, dst: Path) {
    && Tree(fs) && StatusOf(fs, src, dst) == Moved
    && src != [] && !(src <= dst) && forall k :: 0 <= k < |dst| ==> dst[k] != ""
  }

  lemma Above(fs: Files, p: Path, k: nat)
    requires Tree(fs) && p in fs && k <= |p|
    ensures p[..k] in fs
  {
    assert p[..|p|] == p;
  }

  lemma NothingBelow(fs: Files, src: Path, dst: Path, p: Path)
    requires Movable(fs, src, dst) && p in fs
    ensures !(dst <= p)
  {
    hide Tree;
    if dst <= p {
      assert p[..|dst|] == dst;
      Above(fs, p, |dst|);
    }
  }

  lemma ShiftBack(src: Path, dst: Path, p: Path)
    requires src <= p
    ensures dst <= Shift(src, dst, p) && src + Shift(src, dst, p)[|dst|..] == p
  {
  }

  /** Every object is found again, unchanged, where the move put it. */
  lemma MoveKeeps(fs: Files, src: Path, dst: Path, p: Path)
    requires Movable(fs, src, dst) && p in fs
    ensures var q := Shift(src, dst, p); q in AfterMove(fs, src, dst) && AfterMove(fs, src, dst)[q] == fs[p]
  {
    hide Tree, StatusOf;
    NothingBelow(fs, src, dst, p);
    if src <= p {
      ShiftBack(src, dst, p);
    }
  }

  lemma ShiftIsInjective(fs: Files, src: Path, dst: Path, p: Path, q: Path)
    requires Movable(fs, src, dst) && p in fs && q in fs && Shift(src, dst, p) == Shift(src, dst, q)
    ensures p == q
  {
    hide Tree, StatusOf;
    NothingBelow(fs, src, dst, p);
    NothingBelow(fs, src, dst, q);
    if src <= p { ShiftBack(src, dst, p); }
    if src <= q { ShiftBack(src, dst, q); }
  }

  /** What is there afterwards was there before, apart from directories made on the way. */
  lemma MoveAddsDirsOnly(fs: Files, src: Path, dst: Path, q: Path)
    requires Movable(fs, src, dst) && q in AfterMove(fs, src, dst)
    ensures
      || (exists p :: p in fs && Shift(src, dst, p) == q)
      || (q < dst && AfterMove(fs, src, dst)[q] == Dir)
  {
    hide Tree;
    if k :| 0 <= k < |dst| && q == dst[..k] {
      assert q < dst;
      assert !(dst <= q);
    }
  }

  lemma MoveKeepsTree(fs: Files, src: Path, dst: Path)
    requires Movable(fs, src, dst)
    ensures Tree(AfterMove(fs, src, dst))
  {
    hide Movable, AfterMove;
    var g := AfterMove(fs, src, dst);
    forall q, k | q in g && 0 <= k < |q| ensures q[..k] in g && g[q[..k]] == Dir && q[k] != "" {
      PrefixAfterMove(fs, src, dst, q, k);
      NameAfterMove(fs, src, dst, q, k);
    }
  }

  lemma NameAfterMove(fs: Files, src: Path, dst: Path, q: Path, k: nat)
    requires Movable(fs, src, dst) && q in AfterMove(fs, src, dst) && k < |q|
    ensures q[k] != ""
  {
    hide Tree, StatusOf, AfterMove;
    MoveAddsDirsOnly(fs, src, dst, q);
    if p :| p in fs && Shift(src, dst, p) == q {
      if src <= p && k >= |dst| {
        NotEmpty(fs, p, |src| + k - |dst|);
      } else if !(src <= p) {
        NotEmpty(fs, p, k);
      }
    }
  }

  lemma {:induction false} PrefixAfterMove(fs: Files, src: Path, dst: Path, q: Path, k: nat)
    requires Movable(fs, src, dst) && q in AfterMove(fs, src, dst) && k < |q|
    ensures q[..k] in AfterMove(fs, src, dst) && AfterMove(fs, src, dst)[q[..k]] == Dir
    decreases |q|
  {
    hide Movable, AfterMove;
    ParentAfterMove(fs, src, dst, q);
    var parent := q[..|q| - 1];
    if k < |parent| {
      PrefixAfterMove(fs, src, dst, parent, k);
      assert parent[..k] == q[..k];
    }
  }

  lemma AboveIsDir(fs: Files, src: Path, dst: Path, k: nat)
    requires Movable(fs, src, dst) && k < |dst|
    ensures dst[..k] in AfterMove(fs, src, dst) && AfterMove(fs, src, dst)[dst[..k]] == Dir
  {
    hide Tree;
    assert !(dst <= dst[..k]);
    if dst[..k] in fs {
      assert !fs[dst[..k]].File?;
    }
  }

  lemma ShiftSelf(src: Path, dst: Path)
    ensures Shift(src, dst, src) == dst
  {
    assert dst + [] == dst;
  }

  lemma ParentAfterMove(fs: Files, src: Path, dst: Path, q: Path)
    requires Movable(fs, src, dst) && q in AfterMove(fs, src, dst) && q != []
    ensures var parent := q[..|q| - 1]; parent in AfterMove(fs, src, dst) && AfterMove(fs, src, dst)[parent] == Dir
  {
    hide Tree, StatusOf, AfterMove;
    var parent := q[..|q| - 1];
    MoveAddsDirsOnly(fs, src, dst, q);
    if q <= dst {
      AboveIsDir(fs, src, dst, |q| - 1);
      assert dst[..|q| - 1] == parent;
    } else {
      var p :| p in fs && Shift(src, dst, p) == q;
      ParentExists(fs, p);
      var above := p[..|p| - 1];
      MoveKeeps(fs, src, dst, above);
      ShiftSelf(src, dst);
      if src <= p {
        assert src <= above && parent == dst + above[|src|..];
      } else {
        assert !(src <= above) && parent == above;
      }
    }
  }

  // ---- All the moves ----

  /** A run stops at the first move that raises. */
  datatype Applied = Applied(fs: Files, stopped: bool)

  function Apply(fs: Files, steps: seq<Step>): Applied {
    if steps == [] then Applied(fs, false)
    else
      var last := steps[|steps| - 1];
      var before := Apply(fs, steps[..|steps| - 1]);
      if before.stopped then before
      else match StatusOf(before.fs, PathOf(last.at), PathTo(last.to))
        case Moved => Applied(AfterMove(before.fs, PathOf(last.at), PathTo(last.to)), false)
        case Blocked => Applied(before.fs, true)
        case _ => before
  }

  /** Where a path ends up. */
  function Where(fs: Files, steps: seq<Step>, p: Path): Path {
    if steps == [] then p
    else
      var last := steps[|steps| - 1];
      var init := steps[..|steps| - 1];
      var before := Apply(fs, init);
      var q := Where(fs, init, p);
      if !before.stopped && StatusOf(before.fs, PathOf(last.at), PathTo(last.to)) == Moved
      then Shift(PathOf(last.at), PathTo(last.to), q) else q
  }

  /** A step from a directory outside the new layout, with names that exist. */
  predicate Sound(s: Step) {
    Zone(PathOf(s.at)) && Named(s.to)
  }

  /** Inside the old layout. */
  predicate Zone(p: Path) {
    |p| >= 2 && p[0] == SKILLS && p[1] !in RESERVED
  }

  lemma TargetsAreOutside(to: Target)
    ensures |PathTo(to)| >= 3 && PathTo(to)[1] in RESERVED
    ensures Named(to) ==> forall k :: 0 <= k < |PathTo(to)| ==> PathTo(to)[k] != ""
  {
  }

  lemma SoundIsMovable(fs: Files, s: Step)
    requires Tree(fs) && Sound(s) && StatusOf(fs, PathOf(s.at), PathTo(s.to)) == Moved
    ensures Movable(fs, PathOf(s.at), PathTo(s.to))
  {
    hide Tree, PathTo;
    TargetsAreOutside(s.to);
  }

  lemma DecidedIsSound(w: World, s: Step)
    requires Tree(w.fs) && Decide(w, s.at) == Some(s.to)
    ensures Sound(s)
  {
    hide Tree, HasSkill, IsAgent;
    NamesAreNotEmpty(w, s);
    if s.at.Tenant? {
      TenantIsNotNative(s.at.name);
    }
  }

  lemma {:induction false} ApplyKeeps(fs: Files, steps: seq<Step>)
    requires Tree(fs) && forall s :: s in steps ==> Sound(s)
    ensures Tree(Apply(fs, steps).fs)
    ensures forall p :: p in fs ==>
      Where(fs, steps, p) in Apply(fs, steps).fs && Apply(fs, steps).fs[Where(fs, steps, p)] == fs[p]
  {
    hide Tree, Sound, Shift, AfterMove, StatusOf;
    if steps != [] {
      var init, last := steps[..|steps| - 1], steps[|steps| - 1];
      ApplyKeeps(fs, init);
      var before := Apply(fs, init);
      var src, dst := PathOf(last.at), PathTo(last.to);
      if !before.stopped && StatusOf(before.fs, src, dst) == Moved {
        SoundIsMovable(before.fs, last);
        MoveKeepsTree(before.fs, src, dst);
        forall p | p in fs
          ensures Where(fs, steps, p) in Apply(fs, steps).fs && Apply(fs, steps).fs[Where(fs, steps, p)] == fs[p]
        {
          MoveKeeps(before.fs, src, dst, Where(fs, init, p));
        }
      }
    }
  }

  lemma {:induction false} WhereIsInjective(fs: Files, steps: seq<Step>, p: Path, q: Path)
    requires Tree(fs) && (forall s :: s in steps ==> Sound(s))
    requires p in fs && q in fs && Where(fs, steps, p) == Where(fs, steps, q)
    ensures p == q
  {
    hide Tree, Sound, Shift, AfterMove, StatusOf;
    if steps != [] {
      var init, last := steps[..|steps| - 1], steps[|steps| - 1];
      ApplyKeeps(fs, init);
      var before := Apply(fs, init);
      var src, dst := PathOf(last.at), PathTo(last.to);
      if !before.stopped && StatusOf(before.fs, src, dst) == Moved {
        SoundIsMovable(before.fs, last);
        ShiftIsInjective(before.fs, src, dst, Where(fs, init, p), Where(fs, init, q));
      }
      WhereIsInjective(fs, init, p, q);
    }
  }

  lemma {:induction false} NoNewFiles(fs: Files, steps: seq<Step>, q: Path)
    requires Tree(fs) && (forall s :: s in steps ==> Sound(s))
    requires q in Apply(fs, steps).fs && Apply(fs, steps).fs[q].File?
    ensures exists p :: p in fs && Where(fs, steps, p) == q
  {
    hide Tree, Sound, Shift, AfterMove, StatusOf;
    if steps == [] {
      assert Where(fs, steps, q) == q;
    } else {
      var init, last := steps[..|steps| - 1], steps[|steps| - 1];
      ApplyKeeps(fs, init);
      var before := Apply(fs, init);
      var src, dst := PathOf(last.at), PathTo(last.to);
      var r := q;
      if !before.stopped && StatusOf(before.fs, src, dst) == Moved {
        SoundIsMovable(before.fs, last);
        MoveAddsDirsOnly(before.fs, src, dst, q);
        r :| r in before.fs && Shift(src, dst, r) == q;
        MoveKeeps(before.fs, src, dst, r);
      }
      NoNewFiles(fs, init, r);
      var p :| p in fs && Where(fs, init, p) == r;
      assert Where(fs, steps, p) == q;
    }
  }

  /**
   Applying the plan, whatever already exists and even if a move raises, loses no file and
   overwrites none: every object is at its place afterwards, different objects at different places,
   and every file afterwards is one of the files before.
   */
  lemma MigrationLosesNothing(w: World)
    requires Tree(w.fs) && Lists(w.order)
    ensures
      var steps := Plan(w);
      var end := Apply(w.fs, steps).fs;
      && Tree(end)
      && (forall p :: p in w.fs ==> Where(w.fs, steps, p) in end && end[Where(w.fs, steps, p)] == w.fs[p])
      && (forall p, q :: p in w.fs && q in w.fs && p != q ==> Where(w.fs, steps, p) != Where(w.fs, steps, q))
      && (forall q :: q in end && end[q].File? ==> exists p :: p in w.fs && Where(w.fs, steps, p) == q)
  {
    hide Tree, Sound, Apply, Where, Decide, Lists, Plan;
    var steps := Plan(w);
    PlanIsSound(w);
    ApplyKeeps(w.fs, steps);
    forall p, q | p in w.fs && q in w.fs && p != q ensures Where(w.fs, steps, p) != Where(w.fs, steps, q) {
      if Where(w.fs, steps, p) == Where(w.fs, steps, q) {
        WhereIsInjective(w.fs, steps, p, q);
      }
    }
    forall q | q in Apply(w.fs, steps).fs && Apply(w.fs, steps).fs[q].File?
      ensures exists p :: p in w.fs && Where(w.fs, steps, p) == q
    {
      NoNewFiles(w.fs, steps, q);
    }
  }

  lemma PlanIsSound(w: World)
    requires Tree(w.fs) && Lists(w.order)
    ensures forall s :: s in Plan(w) ==> Sound(s)
  {
    hide Tree, Sound, Decide, Lists, Plan;
    forall s | s in Plan(w) ensures Sound(s) {
      PlanIsDecided(w, s);
      DecidedIsSound(w, s);
    }
  }

  // ---- A second run ----

  /** Nothing exists at a destination, and no file stands in its way. */
  predicate Unobstructed(fs: Files, to: Target) {
    PathTo(to) !in fs && !InTheWay(fs, PathTo(to))
  }

  predicate NoClashes(steps: seq<Step>) {
    forall s, t :: s in steps && t in steps ==> !Clash(s, t)
  }

  /** In the old layout things only go away. */
  lemma ZoneShrinks(fs: Files, s: Step, q: Path)
    requires Tree(fs) && Sound(s) && StatusOf(fs, PathOf(s.at), PathTo(s.to)) == Moved
    requires Zone(q) && q in AfterMove(fs, PathOf(s.at), PathTo(s.to))
    ensures q in fs && AfterMove(fs, PathOf(s.at), PathTo(s.to))[q] == fs[q] && !(PathOf(s.at) <= q)
  {
    hide Tree, PathTo, PathOf;
    var src, dst := PathOf(s.at), PathTo(s.to);
    SoundIsMovable(fs, s);
    TargetsAreOutside(s.to);
    assert !(dst <= q) && !(q < dst);
    MoveAddsDirsOnly(fs, src, dst, q);
    var p :| p in fs && Shift(src, dst, p) == q;
    MoveKeeps(fs, src, dst, p);
  }

  /** A move makes no other destination appear and puts nothing in its way. */
  lemma StaysUnobstructed(w: World, fs: Files, s: Step, t: Step)
    requires Tree(w.fs) && Tree(fs) && Decide(w, s.at) == Some(s.to) && Decide(w, t.at) == Some(t.to)
    requires s != t && !Clash(s, t) && !Clash(t, s)
    requires StatusOf(fs, PathOf(s.at), PathTo(s.to)) == Moved && Unobstructed(fs, t.to)
    ensures Unobstructed(AfterMove(fs, PathOf(s.at), PathTo(s.to)), t.to)
  {
    hide Tree, PathTo, PathOf, Decide, StatusOf, InTheWay, AfterMove;
    var src, dst, other := PathOf(s.at), PathTo(s.to), PathTo(t.to);
    DecidedIsSound(w, s);
    NestedExactly(w, s, t);
    NestedExactly(w, t, s);
    SoundIsMovable(fs, s);
    var g := AfterMove(fs, src, dst);
    if other in g {
      MoveAddsDirsOnly(fs, src, dst, other);
    }
    WayStaysClear(fs, src, dst, other);
  }

  lemma WayStaysClear(fs: Files, src: Path, dst: Path, other: Path)
    requires Movable(fs, src, dst) && !InTheWay(fs, other) && !(dst < other)
    ensures !InTheWay(AfterMove(fs, src, dst), other)
  {
    hide Tree, StatusOf, AfterMove;
    var g := AfterMove(fs, src, dst);
    if k :| 0 <= k < |other| && other[..k] in g && g[other[..k]].File? {
      MoveAddsDirsOnly(fs, src, dst, other[..k]);
      var p :| p in fs && Shift(src, dst, p) == other[..k];
      MoveKeeps(fs, src, dst, p);
    }
  }

  /** A step of the plan is either done or can still be made. */
  predicate Ready(fs: Files, s: Step) {
    PathOf(s.at) !in fs || Unobstructed(fs, s.to)
  }

  lemma ReadyStays(w: World, fs: Files, s: Step, t: Step)
    requires Tree(w.fs) && Tree(fs) && Decide(w, s.at) == Some(s.to) && Decide(w, t.at) == Some(t.to)
    requires !Clash(s, t) && !Clash(t, s) && Ready(fs, t)
    requires StatusOf(fs, PathOf(s.at), PathTo(s.to)) == Moved
    ensures Ready(AfterMove(fs, PathOf(s.at), PathTo(s.to)), t)
    ensures PathOf(s.at) !in AfterMove(fs, PathOf(s.at), PathTo(s.to))
    ensures PathOf(t.at) !in fs ==> PathOf(t.at) !in AfterMove(fs, PathOf(s.at), PathTo(s.to))
  {
    hide Tree, PathTo, PathOf, Decide, StatusOf, Unobstructed, AfterMove, Zone;
    DecidedIsSound(w, s);
    DecidedIsSound(w, t);
    var g := AfterMove(fs, PathOf(s.at), PathTo(s.to));
    if PathOf(s.at) in g {
      ZoneShrinks(fs, s, PathOf(s.at));
    }
    if PathOf(t.at) in g {
      ZoneShrinks(fs, s, PathOf(t.at));
    }
    if s != t && Unobstructed(fs, t.to) {
      StaysUnobstructed(w, fs, s, t);
    }
  }

  /** The plan of a file tree in which its destinations are free and do not clash. */
  ghost predicate FreshPlan(w: World, steps: seq<Step>) {
    && Tree(w.fs) && NoClashes(steps)
    && forall s :: s in steps ==> Decide(w, s.at) == Some(s.to) && Unobstructed(w.fs, s.to)
  }

  lemma {:induction false} EveryStepIsMade(w: World, steps: seq<Step>, k: nat)
    requires FreshPlan(w, steps) && k <= |steps|
    ensures
      var now := Apply(w.fs, steps[..k]);
      && !now.stopped && Tree(now.fs)
      && (forall s :: s in steps ==> Ready(now.fs, s))
      && (forall s :: s in steps[..k] ==> PathOf(s.at) !in now.fs)
  {
    hide Tree, PathTo, PathOf, Decide, Clash, AfterMove, Sound;
    forall s | s in steps ensures Sound(s) {
      DecidedIsSound(w, s);
    }
    if k > 0 {
      EveryStepIsMade(w, steps, k - 1);
      assert steps[..k][..k - 1] == steps[..k - 1] && steps[..k] == steps[..k - 1] + [steps[k - 1]];
      var before, s := Apply(w.fs, steps[..k - 1]).fs, steps[k - 1];
      ApplyKeeps(w.fs, steps[..k]);
      assert Ready(before, s);
      if StatusOf(before, PathOf(s.at), PathTo(s.to)) == Moved {
        forall t | t in steps
          ensures Ready(AfterMove(before, PathOf(s.at), PathTo(s.to)), t)
          ensures PathOf(s.at) !in AfterMove(before, PathOf(s.at), PathTo(s.to))
          ensures PathOf(t.at) !in before ==> PathOf(t.at) !in AfterMove(before, PathOf(s.at), PathTo(s.to))
        {
          ReadyStays(w, before, s, t);
        }
      }
    }
  }

  lemma {:induction false} OldLayoutShrinks(w: World, steps: seq<Step>, q: Path)
    requires Tree(w.fs) && (forall s :: s in steps ==> Sound(s)) && Zone(q) && q in Apply(w.fs, steps).fs
    ensures q in w.fs && Apply(w.fs, steps).fs[q] == w.fs[q]
  {
    hide Tree, PathTo, PathOf, Sound, Zone, AfterMove, StatusOf;
    if steps != [] {
      var init, last := steps[..|steps| - 1], steps[|steps| - 1];
      ApplyKeeps(w.fs, init);
      var before := Apply(w.fs, init);
      if !before.stopped && StatusOf(before.fs, PathOf(last.at), PathTo(last.to)) == Moved {
        ZoneShrinks(before.fs, last, q);
      }
      OldLayoutShrinks(w, init, q);
    }
  }

  /** What a second inventory would move, the first one planned to move. */
  lemma NothingNewToMove(w: World, after: World, at: Place)
    requires after == w.(fs := after.fs) && Decide(after, at).Some?
    requires forall q :: Zone(q) && q in after.fs ==> q in w.fs && after.fs[q] == w.fs[q]
    ensures Decide(w, at).Some? && Zone(PathOf(at))
  {
    hide Zone;
    OldPlaces(after, at);
  }

  lemma OldPlaces(w: World, at: Place)
    requires Decide(w, at).Some?
    ensures Zone(PathOf(at)) && Zone(PathOf(at) + [SKILL_FILE])
  {
    if at.Tenant? {
      TenantIsNotNative(at.name);
    }
  }

  /**
   When no destination existed beforehand, nothing stood in the way of one and none clash, the run
   makes every move and a second inventory plans none.
   */
  lemma SecondRunIsEmpty(w: World)
    requires Tree(w.fs) && Lists(w.order) && NoClashes(Plan(w))
    requires forall s :: s in Plan(w) ==> Unobstructed(w.fs, s.to)
    ensures
      var end := Apply(w.fs, Plan(w));
      !end.stopped && Plan(w.(fs := end.fs)) == []
  {
    hide Tree, PathTo, PathOf, Decide, Clash, AfterMove, Lists, Plan, Unobstructed, Apply, Zone, Sound;
    var steps := Plan(w);
    forall s | s in steps ensures Decide(w, s.at) == Some(s.to) {
      PlanIsDecided(w, s);
    }
    EveryStepIsMade(w, steps, |steps|);
    assert steps[..|steps|] == steps;
    PlanIsSound(w);
    var after := w.(fs := Apply(w.fs, steps).fs);
    forall q | Zone(q) && q in after.fs ensures q in w.fs && after.fs[q] == w.fs[q] {
      OldLayoutShrinks(w, steps, q);
    }
    if Plan(after) != [] {
      var s := Plan(after)[0];
      PlanIsDecided(after, s);
      NothingNewToMove(w, after, s.at);
      PlanIsDecided(w, Step(s.at, Decide(w, s.at).value));
      DecidedExists(after, s.at);
    }
  }

  lemma DecidedExists(w: World, at: Place)
    requires Decide(w, at).Some?
    ensures PathOf(at) in w.fs
  {
  }

  lemma NamelessTenantExists(w: World, s: Step)
    requires Tree(w.fs) && Decide(w, s.at) == Some(s.to) && s.to.OfTenant? && s.to.uuid == ""
    ensures [SKILLS, TENANT] in w.fs
  {
    hide Tree, HasSkill, IsAgent;
    assert s.at.name == TENANT + Suffix(s.at.name) == TENANT;
    ParentExists(w.fs, PathOf(s.at));
    assert PathOf(s.at)[..2] == [SKILLS, TENANT];
  }

  /** With no tenant directory called just `tenant_`, nothing clashes. */
  lemma NamedTenantsDoNotClash(w: World)
    requires Tree(w.fs) && Lists(w.order) && [SKILLS, TENANT] !in w.fs
    ensures NoClashes(Plan(w))
  {
    hide Tree, Lists, Plan, HasSkill, IsAgent, Decide;
    forall s, t | s in Plan(w) && t in Plan(w) ensures !Clash(s, t) {
      PlanIsDecided(w, s);
      if Clash(s, t) {
        NamelessTenantExists(w, s);
      }
    }
  }

  // ---- The script ----

  lemma {:induction false} OfKindAppend(kind: Kind, a: seq<Step>, b: seq<Step>)
    ensures OfKind(kind, a + b) == OfKind(kind, a) + OfKind(kind, b)
    decreases |b|
  {
    hide KindOf;
    if b == [] {
      assert a + b == a;
    } else {
      assert (a + b)[..|a + b| - 1] == a + b[..|b| - 1];
      OfKindAppend(kind, a, b[..|b| - 1]);
    }
  }

  lemma ApplyOneMore(fs: Files, steps: seq<Step>, k: nat)
    requires k < |steps|
    ensures
      var before, s := Apply(fs, steps[..k]), steps[k];
      Apply(fs, steps[..k + 1]) ==
        if before.stopped then before
        else match StatusOf(before.fs, PathOf(s.at), PathTo(s.to))
          case Moved => Applied(AfterMove(before.fs, PathOf(s.at), PathTo(s.to)), false)
          case Blocked => Applied(before.fs, true)
          case _ => before
  {
    hide AfterMove, StatusOf;
    assert steps[..k + 1][..k] == steps[..k];
  }

  lemma ApplyNothing(fs: Files)
    ensures Apply(fs, []) == Applied(fs, false)
  {
  }

  lemma {:induction false} StaysStopped(fs: Files, steps: seq<Step>, k: nat)
    requires k <= |steps| && Apply(fs, steps[..k]).stopped
    ensures Apply(fs, steps) == Apply(fs, steps[..k])
    decreases |steps| - k
  {
    hide AfterMove, StatusOf;
    if k < |steps| {
      ApplyOneMore(fs, steps, k);
      StaysStopped(fs, steps, k + 1);
    } else {
      assert steps[..k] == steps;
    }
  }

  /** The three lists the inventory fills. */
  class PlanLists {
    var agents: seq<Step>
    var skills: seq<Step>
    var archives: seq<Step>

    constructor ()
      ensures Hold([])
    {
      agents, skills, archives := [], [], [];
    }

    ghost predicate Hold(steps: seq<Step>)
      reads this
    {
      agents == OfKind(Agents, steps) && skills == OfKind(Skills, steps) && archives == OfKind(Archives, steps)
    }

    /** Look at one directory and note where it goes. */
    method Note(w: World, at: Place, ghost steps: seq<Step>)
      requires Hold(steps)
      modifies this
      ensures Hold(steps + StepsAt(w, at))
    {
      hide Decide;
      OfKindAppend(Agents, steps, StepsAt(w, at));
      OfKindAppend(Skills, steps, StepsAt(w, at));
      OfKindAppend(Archives, steps, StepsAt(w, at));
      var to := Decide(w, at);
      if to == None {
        return;
      }
      var step := Step(at, to.value);
      assert OfKind(Agents, []) == [] && [step][..0] == [];
      match KindOf(to.value)
      case Agents => agents := agents + [step];
      case Skills => skills := skills + [step];
      case Archives => archives := archives + [step];
    }

    /** The loop over the entries of `native` or of a tenant. */
    method Walk(w: World, name: string, ghost steps: seq<Step>)
      requires Hold(steps)
      modifies this
      ensures Hold(steps + InnerSteps(w, name, w.order(Children(w.fs, [SKILLS, name]))))
    {
      hide StepsAt, OfKind;
      var slugs := w.order(Children(w.fs, [SKILLS, name]));
      assert slugs[..0] == [] && steps + [] == steps;
      for k := 0 to |slugs|
        invariant Hold(steps + InnerSteps(w, name, slugs[..k]))
      {
        assert slugs[..k + 1][..k] == slugs[..k];
        Note(w, Inside(name, slugs[k]), steps + InnerSteps(w, name, slugs[..k]));
        assert steps + InnerSteps(w, name, slugs[..k]) + StepsAt(w, Inside(name, slugs[k]))
            == steps + InnerSteps(w, name, slugs[..k + 1]);
      }
      assert slugs[..|slugs|] == slugs;
    }

    method Inventory(w: World)
      requires Hold([])
      modifies this
      ensures agents + skills + archives == Plan(w)
    {
      hide StepsAt, OfKind, InnerSteps, Children;
      var names := w.order(Children(w.fs, [SKILLS]));
      assert names[..0] == [];
      for k := 0 to |names|
        invariant Hold(TopSteps(w, names[..k]))
      {
        ghost var steps := TopSteps(w, names[..k]);
        assert names[..k + 1][..k] == names[..k] && steps + [] == steps;
        var name := names[k];
        if !IsDir(w.fs, [SKILLS, name]) {
          continue;
        }
        if name == NATIVE || (IsTenant(name) && Suffix(name) != ORPHAN) {
          Walk(w, name, steps);
        } else {
          Note(w, Top(name), steps);
        }
      }
      assert names[..|names|] == names;
    }
  }

  class Layout {
    var fs: Files

    constructor (fs: Files)
      ensures this.fs == fs
    {
      this.fs := fs;
    }

    method Move(src: Path, dst: Path, apply: bool) returns (status: Status)
      modifies this
      ensures
        var found := StatusOf(old(fs), src, dst);
        status == if apply || found in {Missing, Exists} then found else WouldMove
      ensures fs == if apply && status == Moved then AfterMove(old(fs), src, dst) else old(fs)
    {
      if src !in fs {
        return Missing;
      }
      if dst in fs {
        return Exists;
      }
      if !apply {
        return WouldMove;
      }
      if InTheWay(fs, dst) {
        return Blocked;
      }
      fs := AfterMove(fs, src, dst);
      return Moved;
    }

    /** The inventory, then the moves; a dry run changes nothing. */
    method Migrate(order: set<string> -> seq<string>, agent: string -> bool, apply: bool)
      modifies this
      ensures fs == if apply then Apply(old(fs), Plan(World(old(fs), order, agent))).fs else old(fs)
    {
      hide AfterMove, StatusOf, Plan, PathOf, PathTo, Apply;
      ApplyNothing(fs);
      var lists := new PlanLists();
      lists.Inventory(World(fs, order, agent));
      var steps := lists.agents + lists.skills + lists.archives;
      ghost var before := fs;
      assert steps[..0] == [];
      for k := 0 to |steps|
        invariant if apply then Apply(before, steps[..k]) == Applied(fs, false) else fs == before
      {
        ApplyOneMore(before, steps, k);
        var status := Move(PathOf(steps[k].at), PathTo(steps[k].to), apply);
        if status == Blocked {
          StaysStopped(before, steps, k + 1);
          return;
        }
      }
      assert steps[..|steps|] == steps;
    }
  }
}
