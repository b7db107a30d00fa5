/** The bus message envelope, the `oftype` routing predicate and seed lineage
    (src/moebius/bus/messages.py). */
module Messages {
  import opened Wrappers

  /** Lineage: originating tag -> set of unique ids of the root events. */
  type Seeds = map<string, set<string>>

  const READY := "READY"
  const PROCESSING := "PROCESSING"
  const ERROR := "ERROR"
  const UNIDENTIFIED := "UNIDENTIFIED"

  /** Seeds of a message whose origin was never identified: `{UNIDENTIFIED: {}}`. */
  const UnidentifiedSeeds: Seeds := map[UNIDENTIFIED := {}]

  /** The sentinel that turns a requested tag into a prefix match. */
  const ELLIPSIS := "..."

  /** The immutable envelope `BM(tag, status, payload, seeds)`. The status is
      kept as text: the bus carries any status string, READY, PROCESSING and
      ERROR being the ones its constructors use. */
  datatype Message<P> = Message(tag: string, status: string, payload: P, seeds: Seeds)
  {
    /** `BM.identify`: the same message, rooted at `uid`; prior seeds are dropped. */
    function Identify(uid: string): (m: Message<P>)
      ensures m.tag == tag && m.status == status && m.payload == payload
      ensures m.seeds.Keys == {tag} && m.seeds[tag] == {uid}
    {
      this.(seeds := map[tag := {uid}])
    }
  }

  /** Payload of a PROCESSING message: the map `{ratio, meta}`. */
  datatype Progress<R, M> = Progress(ratio: R, meta: M)

  function Ready<P>(tag: string, payload: P, seeds: Seeds := UnidentifiedSeeds): (m: Message<P>)
    ensures m.status == READY
    ensures m.tag == tag && m.payload == payload && m.seeds == seeds
  {
    Message(tag, READY, payload, seeds)
  }

  function Processing<R, M>(tag: string, ratio: R, meta: M, seeds: Seeds := UnidentifiedSeeds)
    : (m: Message<Progress<R, M>>)
    ensures m.status == PROCESSING
    ensures m.tag == tag && m.payload == Progress(ratio, meta) && m.seeds == seeds
  {
    Message(tag, PROCESSING, Progress(ratio, meta), seeds)
  }

  function Error<E>(tag: string, ex: E, seeds: Seeds := UnidentifiedSeeds): (m: Message<E>)
    ensures m.status == ERROR
    ensures m.tag == tag && m.payload == ex && m.seeds == seeds
  {
    Message(tag, ERROR, ex, seeds)
  }

  /** Identifying a message forgets whatever seeds it carried before. */
  lemma IdentifyDiscardsPriorSeeds<P>(m: Message<P>, other: Seeds, uid: string)
    ensures m.Identify(uid) == m.(seeds := other).Identify(uid)
    ensures m.Identify(uid).Identify(uid) == m.Identify(uid)
  {
  }

  // ---------------------------------------------------------------------------
  // Text helpers with Python's meaning

  /** `pat` occurs in `s` starting at index `i`. */
  predicate OccursAt(s: string, pat: string, i: nat) {
    i + |pat| <= |s| && s[i..i + |pat|] == pat
  }

  predicate StartsWith(s: string, prefix: string) {
    |prefix| <= |s| && s[..|prefix|] == prefix
  }

  /** `s.find(pat, i)` restricted to the search from index `i`. */
  function FindFrom(s: string, pat: string, i: nat): (r: int)
    requires i <= |s|
    ensures r == -1 || (i <= r && OccursAt(s, pat, r))
    ensures forall j: nat :: i <= j < (if r < 0 then |s| + 1 else r) ==> !OccursAt(s, pat, j)
    decreases |s| - i
  {
    if OccursAt(s, pat, i) then i
    else if i == |s| then -1
    else FindFrom(s, pat, i + 1)
  }

  /** `s.find(pat)`: the lowest index where `pat` occurs, or -1 when it does not. */
  function Find(s: string, pat: string): (r: int)
    ensures r == -1 || (r >= 0 && OccursAt(s, pat, r))
    ensures forall j: nat :: j < (if r < 0 then |s| + 1 else r) ==> !OccursAt(s, pat, j)
  {
    FindFrom(s, pat, 0)
  }

  /** `s.split(pat)[0]` for a text that contains `pat`: what precedes its first occurrence. */
  function Before(s: string, pat: string): (r: string)
    requires Find(s, pat) >= 0
    ensures StartsWith(s, r) && OccursAt(s, pat, |r|)
  {
    s[..Find(s, pat)]
  }

  // ---------------------------------------------------------------------------
  // oftype

  /** A `tag` or `status` argument of `oftype`: `None`, one string, or any other
      container of strings (alternatives). */
  datatype Request = Unconstrained | One(value: string) | Many(values: seq<string>)

  /** `_to_tuple`: a single string is one value, a container is its elements. */
  function ToTuple(r: Request): (t: seq<string>)
    requires !r.Unconstrained?
    ensures r.One? ==> |t| == 1 && r.value in t
    ensures r.Many? ==> forall x :: x in t <==> x in r.values
  {
    if r.One? then [r.value] else r.values
  }

  /** The requested tags without the ellipsis, in request order. */
  function ExactTags(mtags: seq<string>): seq<string> {
    if mtags == [] then []
    else
      var t := mtags[|mtags| - 1];
      ExactTags(mtags[..|mtags| - 1]) + (if Find(t, ELLIPSIS) == -1 then [t] else [])
  }

  /** The prefixes of the requested tags that hold the ellipsis, in request order. */
  function PrefixTags(mtags: seq<string>): seq<string> {
    if mtags == [] then []
    else
      var t := mtags[|mtags| - 1];
      PrefixTags(mtags[..|mtags| - 1]) + (if Find(t, ELLIPSIS) == -1 then [] else [Before(t, ELLIPSIS)])
  }

  /** The loop of `_match_tag` that sorts the requested tags into exact tags and
      prefixes. */
  method SplitTags(mtags: seq<string>) returns (exact: seq<string>, prefixes: seq<string>)
    ensures exact == ExactTags(mtags) && prefixes == PrefixTags(mtags)
  {
    exact, prefixes := [], [];
    for i := 0 to |mtags|
      invariant exact == ExactTags(mtags[..i])
      invariant prefixes == PrefixTags(mtags[..i])
    {
      assert mtags[..i + 1][..i] == mtags[..i];
      var tag := mtags[i];
      if Find(tag, ELLIPSIS) == -1 {
        exact := exact + [tag];
      } else {
        prefixes := prefixes + [Before(tag, ELLIPSIS)];
      }
    }
    assert mtags[..|mtags|] == mtags;
  }

  lemma {:induction false} ExactTagsMembership(mtags: seq<string>, t: string)
    ensures t in ExactTags(mtags) <==> t in mtags && Find(t, ELLIPSIS) == -1
  {
    if mtags != [] {
      var init := mtags[..|mtags| - 1];
      ExactTagsMembership(init, t);
      assert mtags == init + [mtags[|mtags| - 1]];
    }
  }

  lemma {:induction false} PrefixTagsMembership(mtags: seq<string>, p: string)
    ensures p in PrefixTags(mtags) <==>
            exists t :: t in mtags && Find(t, ELLIPSIS) >= 0 && p == Before(t, ELLIPSIS)
  {
    if mtags != [] {
      var init := mtags[..|mtags| - 1];
      var last := mtags[|mtags| - 1];
      PrefixTagsMembership(init, p);
      assert mtags == init + [last];
      if Find(last, ELLIPSIS) >= 0 && p == Before(last, ELLIPSIS) {
        assert p in PrefixTags(mtags);
      }
    }
  }

  /** The compiled tag test of `_match_tag`. */
  datatype TagMatcher = AnyTag | TagLists(exact: seq<string>, prefixes: seq<string>)

  /** The compiled status test of `_match_status`. */
  datatype StatusMatcher = AnyStatus | StatusList(values: seq<string>)

  function MatchTag(mtags: Request): TagMatcher {
    if mtags.Unconstrained? then AnyTag
    else TagLists(ExactTags(ToTuple(mtags)), PrefixTags(ToTuple(mtags)))
  }

  /** `_match_tag`: no request passes every tag; a single requested tag is
      either an exact tag or, with an ellipsis, the prefix before it. */
  lemma MatchTagCases(mtags: Request)
    ensures mtags.Unconstrained? ==> forall tag :: TagPasses(MatchTag(mtags), tag)
    ensures mtags.One? && Find(mtags.value, ELLIPSIS) == -1 ==> MatchTag(mtags) == TagLists([mtags.value], [])
    ensures mtags.One? && Find(mtags.value, ELLIPSIS) >= 0 ==>
              MatchTag(mtags) == TagLists([], [Before(mtags.value, ELLIPSIS)])
  {
    if mtags.One? {
      var x := mtags.value;
      var t := ToTuple(mtags);
      assert t == [x] && t[..0] == [];
      assert ExactTags(t) == (if Find(x, ELLIPSIS) == -1 then [x] else []);
      assert PrefixTags(t) == (if Find(x, ELLIPSIS) == -1 then [] else [Before(x, ELLIPSIS)]);
    }
  }

  /** `_match_status`: no request passes every status; otherwise a status
      passes exactly when it is one of the requested ones, an ellipsis
      included literally. */
  function MatchStatus(mstatus: Request): (m: StatusMatcher)
    ensures mstatus.Unconstrained? ==> forall status :: StatusPasses(m, status)
    ensures mstatus.One? ==> forall status :: StatusPasses(m, status) <==> status == mstatus.value
    ensures mstatus.Many? ==> forall status :: StatusPasses(m, status) <==> status in mstatus.values
  {
    if mstatus.Unconstrained? then AnyStatus else StatusList(ToTuple(mstatus))
  }

  predicate TagPasses(m: TagMatcher, tag: string) {
    match m
    case AnyTag => true
    case TagLists(exact, prefixes) =>
      tag in exact || exists p :: p in prefixes && StartsWith(tag, p)
  }

  predicate StatusPasses(m: StatusMatcher, status: string) {
    match m
    case AnyStatus => true
    case StatusList(values) => status in values
  }

  /** What the predicate is applied to: any object, which may or may not have a
      `tag` and a `status` attribute. */
  datatype Subject = Subject(tag: Option<string>, status: Option<string>)

  function SubjectOf<P>(m: Message<P>): Subject {
    Subject(Some(m.tag), Some(m.status))
  }

  /** The `TypeError` raised on an object that is not a bus message; it names the
      constraints and the object. */
  datatype BusError = NotABusMessage(tags: Request, statuses: Request, obj: Subject)

  /** The predicate returned by `oftype`, with the constraints it was built from. */
  datatype Filter = Filter(tagRequest: Request, statusRequest: Request,
                           tags: TagMatcher, statuses: StatusMatcher)

  /** `oftype(tag, status)`: the filter keeps both requests; without any
      request it passes every bus message. */
  function OfType(tag: Request := Unconstrained, status: Request := Unconstrained): (f: Filter)
    ensures f.tagRequest == tag && f.statusRequest == status
    ensures tag.Unconstrained? && status.Unconstrained? ==>
              forall obj: Subject :: obj.tag.Some? && obj.status.Some? ==> Test(f, obj) == Ok(true)
  {
    Filter(tag, status, MatchTag(tag), MatchStatus(status))
  }

  /** Applies an `oftype` predicate (`inner`) to an object. */
  function Test(f: Filter, obj: Subject): (r: Result<bool, BusError>)
    ensures r.Err? <==> obj.tag.None? || obj.status.None?
    ensures r.Err? ==> r.error == NotABusMessage(f.tagRequest, f.statusRequest, obj)
  {
    if obj.tag.None? || obj.status.None? then
      Err(NotABusMessage(f.tagRequest, f.statusRequest, obj))
    else
      Ok(TagPasses(f.tags, obj.tag.value) && StatusPasses(f.statuses, obj.status.value))
  }

  /** One requested tag value accepts `tag`: exact equality without the ellipsis,
      a prefix match on the text before the first ellipsis with it. */
  predicate Wanted(requested: string, tag: string) {
    if Find(requested, ELLIPSIS) == -1 then tag == requested
    else StartsWith(tag, Before(requested, ELLIPSIS))
  }

  /** The meaning of `oftype(tag, status)` on anything that has both attributes:
      some requested tag accepts it (or none was requested) and its status is one
      of the requested ones (or none was requested). */
  lemma OfTypeMeaning(tagReq: Request, statusReq: Request, tag: string, status: string)
    ensures Test(OfType(tagReq, statusReq), Subject(Some(tag), Some(status))) ==
            Ok((tagReq.Unconstrained? || exists t :: t in ToTuple(tagReq) && Wanted(t, tag)) &&
               (statusReq.Unconstrained? || status in ToTuple(statusReq)))
  {
    if !tagReq.Unconstrained? {
      var mtags := ToTuple(tagReq);
      if exists t :: t in mtags && Wanted(t, tag) {
        var t :| t in mtags && Wanted(t, tag);
        WantedTagPasses(mtags, t, tag);
      }
      if TagPasses(MatchTag(tagReq), tag) {
        PassingTagWanted(mtags, tag);
      }
    }
  }

  /** A tag some requested tag accepts passes the compiled tag test. */
  lemma WantedTagPasses(mtags: seq<string>, t: string, tag: string)
    requires t in mtags && Wanted(t, tag)
    ensures TagPasses(TagLists(ExactTags(mtags), PrefixTags(mtags)), tag)
  {
    if Find(t, ELLIPSIS) == -1 {
      ExactTagsMembership(mtags, tag);
    } else {
      PrefixTagsMembership(mtags, Before(t, ELLIPSIS));
    }
  }

  /** A tag that passes the compiled tag test is accepted by a requested tag. */
  lemma PassingTagWanted(mtags: seq<string>, tag: string)
    requires TagPasses(TagLists(ExactTags(mtags), PrefixTags(mtags)), tag)
    ensures exists t :: t in mtags && Wanted(t, tag)
  {
    ExactTagsMembership(mtags, tag);
    if tag in ExactTags(mtags) {
      assert Wanted(tag, tag);
    } else {
      var p :| p in PrefixTags(mtags) && StartsWith(tag, p);
      PrefixTagsMembership(mtags, p);
      var t :| t in mtags && Find(t, ELLIPSIS) >= 0 && p == Before(t, ELLIPSIS);
      assert Wanted(t, tag);
    }
  }

  /** Every bus message can be tested; routing never raises on one. */
  lemma MessagesAreTestable<P>(f: Filter, m: Message<P>)
    ensures Test(f, SubjectOf(m)).Ok?
  {
  }

  /** The three constructors are told apart by a status filter. */
  lemma ConstructorsRouteByStatus<P>(tag: string, p: P, s: Seeds)
    ensures Test(OfType(status := One(READY)), SubjectOf(Ready(tag, p, s))) == Ok(true)
    ensures Test(OfType(status := One(READY)), SubjectOf(Error(tag, p, s))) == Ok(false)
    ensures Test(OfType(status := One(ERROR)), SubjectOf(Error(tag, p, s))) == Ok(true)
  {
  }

  /** A filter accepts a bus message. */
  predicate Passes<P>(f: Filter, m: Message<P>) {
    Test(f, SubjectOf(m)) == Ok(true)
  }

  /** A text without a dot holds no ellipsis. */
  lemma NoEllipsis(t: string)
    requires '.' !in t
    ensures Find(t, ELLIPSIS) == -1
  {
    forall j: nat | j + 3 <= |t| ensures !OccursAt(t, ELLIPSIS, j) {
      assert t[j] == t[j..j + 3][0];
    }
  }

  /** A requested tag without an ellipsis is matched by equality. */
  lemma ExactTagFilter<P>(t: string, status: Request, m: Message<P>)
    requires '.' !in t
    ensures Passes(OfType(One(t), status), m) <==>
            m.tag == t && (status.Unconstrained? || m.status in ToTuple(status))
  {
    OfTypeMeaning(One(t), status, m.tag, m.status);
    NoEllipsis(t);
  }

  /** A requested tag `prefix + "..."` is matched by every tag starting with `prefix`. */
  lemma PrefixTagFilter<P>(prefix: string, status: Request, m: Message<P>)
    requires '.' !in prefix
    ensures Passes(OfType(One(prefix + ELLIPSIS), status), m) <==>
            StartsWith(m.tag, prefix) && (status.Unconstrained? || m.status in ToTuple(status))
  {
    var t := prefix + ELLIPSIS;
    OfTypeMeaning(One(t), status, m.tag, m.status);
    assert OccursAt(t, ELLIPSIS, |prefix|) by {
      assert t[|prefix|..|prefix| + 3] == ELLIPSIS;
    }
    forall j: nat | j < |prefix| ensures !OccursAt(t, ELLIPSIS, j) {
      assert t[j] == prefix[j];
      assert j + 3 <= |t| ==> t[j] == t[j..j + 3][0];
    }
    assert Find(t, ELLIPSIS) == |prefix|;
    assert Before(t, ELLIPSIS) == prefix;
  }

  // ---------------------------------------------------------------------------
  // combine_seeds

  /** The seeds of `acc` updated with those of `s` (`update_with(|)`): every key of
      either, mapped to the union of its id sets. */
  function Merge(acc: Seeds, s: Seeds): (r: Seeds)
    ensures r.Keys == acc.Keys + s.Keys
    ensures forall k :: k in r ==> r[k] == IdsOf(acc, k) + IdsOf(s, k)
  {
    map k | k in acc.Keys + s.Keys :: IdsOf(acc, k) + IdsOf(s, k)
  }

  /** The ids a seed map holds under `k`, none when `k` is absent. */
  function IdsOf(s: Seeds, k: string): set<string> {
    if k in s then s[k] else {}
  }

  /** `combine_seeds(*args)`: fold of `Merge` from the empty map, skipping `None`s. */
  function CombinedSeeds(args: seq<Option<Seeds>>): Seeds {
    if args == [] then map[]
    else
      var acc := CombinedSeeds(args[..|args| - 1]);
      match args[|args| - 1]
      case None => acc
      case Some(s) => Merge(acc, s)
  }

  /** The loop of `combine_seeds`. */
  method CombineSeeds(args: seq<Option<Seeds>>) returns (result: Seeds)
    ensures result == CombinedSeeds(args)
  {
    result := map[];
    for i := 0 to |args|
      invariant result == CombinedSeeds(args[..i])
    {
      assert args[..i + 1][..i] == args[..i];
      if args[i].Some? {
        result := Merge(result, args[i].value);
      }
    }
    assert args[..|args|] == args;
  }

  lemma MergeCommutative(a: Seeds, b: Seeds)
    ensures Merge(a, b) == Merge(b, a)
  {
    var l, r := Merge(a, b), Merge(b, a);
    assert l.Keys == r.Keys;
    forall k | k in l ensures l[k] == r[k] { }
  }

  lemma MergeAssociative(a: Seeds, b: Seeds, c: Seeds)
    ensures Merge(Merge(a, b), c) == Merge(a, Merge(b, c))
  {
    var l, r := Merge(Merge(a, b), c), Merge(a, Merge(b, c));
    assert l.Keys == r.Keys;
    forall k ensures IdsOf(l, k) == IdsOf(r, k) {
      MergeAssociativeAt(a, b, c, k);
    }
    SameIdsSameSeeds(l, r);
  }

  /** Associativity of the merge under one key. */
  lemma MergeAssociativeAt(a: Seeds, b: Seeds, c: Seeds, k: string)
    ensures IdsOf(Merge(Merge(a, b), c), k) == IdsOf(Merge(a, Merge(b, c)), k)
  {
    MergeAt(Merge(a, b), c, k);
    MergeAt(a, b, k);
    MergeAt(a, Merge(b, c), k);
    MergeAt(b, c, k);
  }

  /** The ids of a merge under any key, present or not. */
  lemma MergeAt(a: Seeds, b: Seeds, k: string)
    ensures IdsOf(Merge(a, b), k) == IdsOf(a, k) + IdsOf(b, k)
    ensures k in Merge(a, b) <==> k in a || k in b
  {
  }

  /** Two seed maps with the same keys and the same ids under each are equal. */
  lemma SameIdsSameSeeds(l: Seeds, r: Seeds)
    requires forall k :: IdsOf(l, k) == IdsOf(r, k)
    requires l.Keys == r.Keys
    ensures l == r
  {
    forall k | k in l ensures l[k] == r[k] {
      assert IdsOf(l, k) == IdsOf(r, k);
    }
  }

  lemma MergeIdempotent(a: Seeds)
    ensures Merge(a, a) == a
  {
    var l := Merge(a, a);
    assert l.Keys == a.Keys;
    forall k | k in l ensures l[k] == a[k] { }
  }

  /** A key is in the combination iff some present argument has it, and an id is
      under that key iff some present argument has it there: nothing is dropped
      and nothing is invented. */
  lemma CombinedSeedsMembership(args: seq<Option<Seeds>>, k: string, id: string)
    ensures k in CombinedSeeds(args) <==>
            exists i :: 0 <= i < |args| && args[i].Some? && k in args[i].value
    ensures k in CombinedSeeds(args) ==>
            (id in CombinedSeeds(args)[k] <==>
             exists i :: 0 <= i < |args| && args[i].Some? && k in args[i].value && id in args[i].value[k])
  {
    CombinedSeedsKeys(args, k);
    CombinedSeedsIds(args, k, id);
  }

  lemma {:induction false} CombinedSeedsKeys(args: seq<Option<Seeds>>, k: string)
    ensures k in CombinedSeeds(args) <==>
            exists i :: 0 <= i < |args| && args[i].Some? && k in args[i].value
  {
    if args != [] {
      var n := |args| - 1;
      var init := args[..n];
      CombinedSeedsKeys(init, k);
      if args[n].Some? {
        MergeAt(CombinedSeeds(init), args[n].value, k);
      }
      if k in CombinedSeeds(args) {
        if k in CombinedSeeds(init) {
          var i :| 0 <= i < n && init[i].Some? && k in init[i].value;
          assert args[i] == init[i];
        }
      } else {
        forall i | 0 <= i < |args| ensures !(args[i].Some? && k in args[i].value) {
          if i < n {
            assert args[i] == init[i];
          }
        }
      }
    }
  }

  lemma {:induction false} CombinedSeedsIds(args: seq<Option<Seeds>>, k: string, id: string)
    ensures id in IdsOf(CombinedSeeds(args), k) <==>
            exists i :: 0 <= i < |args| && args[i].Some? && k in args[i].value && id in args[i].value[k]
  {
    if args != [] {
      var n := |args| - 1;
      var init := args[..n];
      CombinedSeedsIds(init, k, id);
      if args[n].Some? {
        MergeAt(CombinedSeeds(init), args[n].value, k);
      }
      if id in IdsOf(CombinedSeeds(args), k) {
        if id in IdsOf(CombinedSeeds(init), k) {
          var i :| 0 <= i < n && init[i].Some? && k in init[i].value && id in init[i].value[k];
          assert args[i] == init[i];
        }
      } else {
        forall i | 0 <= i < |args| ensures !(args[i].Some? && k in args[i].value && id in args[i].value[k]) {
          if i < n {
            assert args[i] == init[i];
          }
        }
      }
    }
  }

  /** `combine_seeds` does not depend on the order or repetition of its arguments. */
  lemma CombinedSeedsOrderFree(a: seq<Option<Seeds>>, b: seq<Option<Seeds>>)
    requires forall x :: x in a <==> x in b
    ensures CombinedSeeds(a) == CombinedSeeds(b)
  {
    var ra, rb := CombinedSeeds(a), CombinedSeeds(b);
    forall k ensures k in ra <==> k in rb {
      CombinedSeedsMembership(a, k, "");
      CombinedSeedsMembership(b, k, "");
      if exists i :: 0 <= i < |a| && a[i].Some? && k in a[i].value {
        var i :| 0 <= i < |a| && a[i].Some? && k in a[i].value;
        assert a[i] in b;
      }
      if exists i :: 0 <= i < |b| && b[i].Some? && k in b[i].value {
        var i :| 0 <= i < |b| && b[i].Some? && k in b[i].value;
        assert b[i] in a;
      }
    }
    forall k | k in ra ensures ra[k] == rb[k] {
      forall id ensures id in ra[k] <==> id in rb[k] {
        CombinedSeedsMembership(a, k, id);
        CombinedSeedsMembership(b, k, id);
        if exists i :: 0 <= i < |a| && a[i].Some? && k in a[i].value && id in a[i].value[k] {
          var i :| 0 <= i < |a| && a[i].Some? && k in a[i].value && id in a[i].value[k];
          assert a[i] in b;
        }
        if exists i :: 0 <= i < |b| && b[i].Some? && k in b[i].value && id in b[i].value[k] {
          var i :| 0 <= i < |b| && b[i].Some? && k in b[i].value && id in b[i].value[k];
          assert b[i] in a;
        }
      }
    }
  }

  /** Combining two seed maps keeps each of them whole. */
  lemma CombinedSeedsKeepsInputs(a: Seeds, b: Seeds)
    ensures var r := CombinedSeeds([Some(a), Some(b)]);
            r.Keys == a.Keys + b.Keys &&
            (forall k :: k in a ==> a[k] <= r[k]) &&
            (forall k :: k in b ==> b[k] <= r[k])
  {
    assert [Some(a), Some(b)][..1] == [Some(a)];
    assert [Some(a)][..0] == [];
    assert CombinedSeeds([Some(a)]) == Merge(map[], a);
  }
}
