/** The static marker bank: a fixed set of numbered markers addressed by a tag
    suffix (src/moebius/core/markers2.py). */
module StaticMarkers {
  import opened Wrappers
  import opened Messages
  import Markers

  const MARKER_SIGNAL_IDX := "MARKER_SIGNAL_IDX"
  const MARKER_SAMPLE_IDX := "MARKER_SAMPLE_IDX"
  const MARKER_STATUS := "MARKER_STATUS"
  const MARKER_SIGNAL := "MARKER_SIGNAL"
  const ENABLE := "ENABLE"
  const DISABLE := "DISABLE"

  /** Payload of a bank action: an index or an ENABLE/DISABLE status. */
  datatype Payload = Index(i: int) | Status(text: string)

  /** The `ValueError`s of the constructors. */
  datatype ConstructionError = NegativeIndex(idx: int) | UnknownStatus(status: string)

  // ---------------------------------------------------------------------------
  // Constructors

  function BmSignalIdx(markerId: string, signalIdx: int, seeds: Seeds): (r: Result<Message<Payload>, ConstructionError>)
    ensures r.Err? <==> signalIdx < 0
    ensures r.Err? ==> r.error == NegativeIndex(signalIdx)
    ensures r.Ok? ==> r.value == Ready(MARKER_SIGNAL_IDX + "/" + markerId, Index(signalIdx), seeds)
  {
    if signalIdx < 0 then Err(NegativeIndex(signalIdx))
    else Ok(Ready(MARKER_SIGNAL_IDX + "/" + markerId, Index(signalIdx), seeds))
  }

  function BmSampleIdx(markerId: string, sampleIdx: int, seeds: Seeds): (m: Message<Payload>)
    ensures m.status == READY && m.tag == MARKER_SAMPLE_IDX + "/" + markerId
    ensures m.payload == Index(sampleIdx) && m.seeds == seeds
  {
    Ready(MARKER_SAMPLE_IDX + "/" + markerId, Index(sampleIdx), seeds)
  }

  function BmStatus(markerId: string, status: string, seeds: Seeds): (r: Result<Message<Payload>, ConstructionError>)
    ensures r.Err? <==> status != ENABLE && status != DISABLE
    ensures r.Err? ==> r.error == UnknownStatus(status)
    ensures r.Ok? ==> r.value == Ready(MARKER_STATUS + "/" + markerId, Status(status), seeds)
  {
    if status != ENABLE && status != DISABLE then Err(UnknownStatus(status))
    else Ok(Ready(MARKER_STATUS + "/" + markerId, Status(status), seeds))
  }

  // ---------------------------------------------------------------------------
  // Routing by tag suffix

  /** `s.split('/')[-1]`: the text after the last `/`, the whole text without one. */
  function LastSegment(s: string): (r: string)
    ensures '/' !in r
    ensures |r| <= |s| && s[|s| - |r|..] == r
    ensures |r| < |s| ==> s[|s| - |r| - 1] == '/'
  {
    if s == [] then []
    else if s[|s| - 1] == '/' then []
    else LastSegment(s[..|s| - 1]) + [s[|s| - 1]]
  }

  /** `test_for_marker_id`. */
  predicate ForMarker<P>(m: Message<P>, markerId: string) {
    LastSegment(m.tag) == markerId
  }

  /** A tag built as `prefix + '/' + id` ends in the segment `id`, when `id`
      holds no `/`. */
  lemma {:induction false} SuffixOfTag(prefix: string, id: string)
    requires '/' !in id
    ensures LastSegment(prefix + "/" + id) == id
  {
    var s := prefix + "/" + id;
    if id != [] {
      var init := id[..|id| - 1];
      SuffixOfTag(prefix, init);
      assert s[..|s| - 1] == prefix + "/" + init;
      assert s[|s| - 1] == id[|id| - 1];
      assert init + [id[|id| - 1]] == id;
    }
  }

  /** Such a tag belongs to exactly the marker `id`. */
  lemma SuffixRouting<P>(m: Message<P>, prefix: string, id: string, other: string)
    requires '/' !in id && m.tag == prefix + "/" + id
    ensures ForMarker(m, other) <==> other == id
  {
    SuffixOfTag(prefix, id);
  }

  // ---------------------------------------------------------------------------
  // Marker ids

  /** 10 to the power `k`. */
  function Pow10(k: nat): (p: nat)
    ensures p >= 1
  {
    if k == 0 then 1 else 10 * Pow10(k - 1)
  }

  /** `floor(log10(n)) + 1`: the number of decimal digits of `n`. */
  function NDigits(n: nat): (k: nat)
    requires n >= 1
    ensures k >= 1 && Pow10(k - 1) <= n < Pow10(k)
  {
    if n < 10 then 1 else 1 + NDigits(n / 10)
  }

  function DigitChar(d: nat): (c: char)
    requires d < 10
    ensures '0' <= c <= '9'
  {
    ('0' as int + d) as char
  }

  predicate AllDigits(s: string) {
    forall j :: 0 <= j < |s| ==> '0' <= s[j] <= '9'
  }

  /** The number a text of decimal digits denotes. */
  function Value(s: string): nat
    requires AllDigits(s)
  {
    if s == [] then 0 else 10 * Value(s[..|s| - 1]) + (s[|s| - 1] as int - '0' as int)
  }

  /** The decimal text of `n`, without leading zeros. */
  function DecimalText(n: nat): (s: string)
    ensures AllDigits(s) && |s| == (if n == 0 then 1 else NDigits(n))
    ensures Value(s) == n
  {
    if n < 10 then [DigitChar(n)]
    else
      var init := DecimalText(n / 10);
      var s := init + [DigitChar(n % 10)];
      assert s[..|s| - 1] == init;
      s
  }

  function Zeros(k: nat): (z: string)
    ensures |z| == k && AllDigits(z) && Value(z) == 0
  {
    if k == 0 then []
    else
      var z := Zeros(k - 1) + ['0'];
      assert z[..k - 1] == Zeros(k - 1);
      z
  }

  /** Leading zeros do not change the value of a digit text. */
  lemma {:induction false} LeadingZeros(k: nat, t: string)
    requires AllDigits(t)
    ensures AllDigits(Zeros(k) + t) && Value(Zeros(k) + t) == Value(t)
  {
    var zt := Zeros(k) + t;
    assert AllDigits(zt) by {
      forall j | 0 <= j < |zt| ensures '0' <= zt[j] <= '9' {
        if j >= k {
          assert zt[j] == t[j - k];
        }
      }
    }
    if t == [] {
      assert zt == Zeros(k);
    } else {
      var init := t[..|t| - 1];
      LeadingZeros(k, init);
      assert zt[..|zt| - 1] == Zeros(k) + init;
      assert zt[|zt| - 1] == t[|t| - 1];
    }
  }

  /** `'{:0w}'.format(n)`: `n` in decimal, left-padded with zeros to width `w`. */
  function ZeroPadded(n: nat, w: nat): (s: string)
    ensures AllDigits(s) && Value(s) == n
    ensures |s| == if |DecimalText(n)| <= w then w else |DecimalText(n)|
  {
    var t := DecimalText(n);
    if |t| <= w then
      LeadingZeros(w - |t|, t);
      Zeros(w - |t|) + t
    else t
  }

  /** Marker numbers below `count` have at most as many digits as `count`. */
  lemma {:induction false} FewerDigits(i: nat, count: nat)
    requires i < count
    ensures |DecimalText(i)| <= NDigits(count)
  {
    if i >= 1 {
      var k, c := NDigits(i), NDigits(count);
      if c <= k - 1 {
        PowMonotone(c, k - 1);
      }
    }
  }

  lemma {:induction false} PowMonotone(a: nat, b: nat)
    requires a <= b
    ensures Pow10(a) <= Pow10(b)
  {
    if a < b {
      PowMonotone(a, b - 1);
    }
  }

  /** Why `create_markers` fails: `log10` of a count below 1. */
  datatype IdsError = NoMarkers(count: int)

  /** The id comprehension of `create_markers`: `'#'` followed by `i` padded to
      the digit count of `count`, for `i` in `range(count)`. */
  function MarkerIds(count: int): (r: Result<seq<string>, IdsError>)
    ensures r.Err? <==> count < 1
    ensures r.Ok? ==> |r.value| == count
    ensures r.Ok? ==> forall i :: 0 <= i < count ==> r.value[i] == "#" + ZeroPadded(i, NDigits(count))
  {
    if count < 1 then Err(NoMarkers(count))
    else Ok(seq(count, (i: int) requires 0 <= i => "#" + ZeroPadded(i, NDigits(count))))
  }

  /** There are `count` ids, pairwise distinct, all of length `1 + ndigits`,
      none holding a `/`. */
  lemma MarkerIdsShape(count: int)
    requires count >= 1
    ensures var ids := MarkerIds(count).value;
            (forall i :: 0 <= i < count ==> |ids[i]| == 1 + NDigits(count) && '/' !in ids[i]) &&
            (forall i, j :: 0 <= i < j < count ==> ids[i] != ids[j])
  {
    var ids := MarkerIds(count).value;
    forall i | 0 <= i < count
      ensures |ids[i]| == 1 + NDigits(count) && '/' !in ids[i]
    {
      FewerDigits(i, count);
      var s := ZeroPadded(i, NDigits(count));
      assert ids[i] == "#" + s;
      forall j | 0 <= j < |ids[i]| ensures ids[i][j] != '/' {
        if j > 0 {
          assert ids[i][j] == s[j - 1];
        }
      }
    }
    forall i, j | 0 <= i < j < count ensures ids[i] != ids[j] {
      var w := NDigits(count);
      assert ids[i][1..] == ZeroPadded(i, w) && ids[j][1..] == ZeroPadded(j, w);
      assert Value(ZeroPadded(i, w)) != Value(ZeroPadded(j, w));
    }
  }

  // ---------------------------------------------------------------------------
  // Per-marker signal join

  /** The payload of a MARKER_SIGNAL message: the row, or the text NOT_AVAILABLE. */
  datatype SignalData = Row(row: seq<real>) | NotAvailable

  /** `extract_signal`: the row at the latest index, or NOT_AVAILABLE. A
      status payload on a signal index tag is not an integer, and numpy answers
      that index with the same `IndexError`. */
  function ExtractSignal(markerId: string, idx: Message<Payload>, src: Message<seq<seq<real>>>): (m: Message<SignalData>)
    ensures m.status == READY && m.tag == MARKER_SIGNAL + "/" + markerId
    ensures idx.payload.Status? ==> m.payload == NotAvailable
    ensures idx.payload.Index? ==> (m.payload.Row? <==> -|src.payload| <= idx.payload.i < |src.payload|)
    ensures idx.payload.Index? && m.payload.Row? ==> m.payload.row == src.payload[idx.payload.i % |src.payload|]
    ensures m.seeds == CombinedSeeds([Some(idx.seeds), Some(src.seeds)])
  {
    var data := match idx.payload
      case Status(_) => NotAvailable
      case Index(i) =>
        (match Markers.PyIndex(src.payload, i)
         case Some(row) => Row(row)
         case None => NotAvailable);
    Ready(MARKER_SIGNAL + "/" + markerId, data, CombinedSeeds([Some(idx.seeds), Some(src.seeds)]))
  }

  const BankActions := OfType(One("MARKER" + ELLIPSIS), One(READY))
  const SignalIndexActions := OfType(One(MARKER_SIGNAL_IDX + ELLIPSIS))

  /** An action reaches the signal index stream of marker `markerId`. */
  predicate SetsIndexOf(m: Message<Payload>, markerId: string) {
    Passes(BankActions, m) && ForMarker(m, markerId) && Passes(SignalIndexActions, m)
  }

  lemma SetsIndexOfMeaning(m: Message<Payload>, markerId: string)
    ensures SetsIndexOf(m, markerId) <==>
            m.status == READY && StartsWith(m.tag, MARKER_SIGNAL_IDX) && LastSegment(m.tag) == markerId
  {
    BankActionsMeaning(m);
    SignalIndexActionsMeaning(m);
  }

  /** `oftype('MARKER...', READY)` on a bank action. */
  lemma BankActionsMeaning(m: Message<Payload>)
    ensures Passes(BankActions, m) <==> m.status == READY && StartsWith(m.tag, "MARKER")
  {
    assert '.' !in "MARKER";
    PrefixTagFilter("MARKER", One(READY), m);
  }

  /** `oftype(MARKER_SIGNAL_IDX + '...')` on a bank action; such a tag also
      starts with `MARKER`. */
  lemma SignalIndexActionsMeaning(m: Message<Payload>)
    ensures Passes(SignalIndexActions, m) <==> StartsWith(m.tag, MARKER_SIGNAL_IDX)
    ensures StartsWith(m.tag, MARKER_SIGNAL_IDX) ==> StartsWith(m.tag, "MARKER")
  {
    assert '.' !in MARKER_SIGNAL_IDX;
    PrefixTagFilter(MARKER_SIGNAL_IDX, Unconstrained, m);
    if StartsWith(m.tag, MARKER_SIGNAL_IDX) {
      assert m.tag[..6] == MARKER_SIGNAL_IDX[..6];
    }
  }

  datatype BankEvent = BankAct(action: Message<Payload>) | BankSignals(signals: Message<seq<seq<real>>>)

  /** The index slot of one marker after an event. */
  function NextSlot(slot: Option<Message<Payload>>, markerId: string, e: BankEvent): Option<Message<Payload>> {
    if e.BankAct? && SetsIndexOf(e.action, markerId) then Some(e.action) else slot
  }

  /** What one marker emits after an event, given its new slot and the latest
      signals: one signal message when the event is its own index update or new
      signals and both values exist. */
  function MarkerOutput(markerId: string, slot: Option<Message<Payload>>, signals: Option<Message<seq<seq<real>>>>,
                        e: BankEvent): seq<Message<SignalData>>
  {
    if (e.BankSignals? || SetsIndexOf(e.action, markerId)) && slot.Some? && signals.Some?
    then [ExtractSignal(markerId, slot.value, signals.value)]
    else []
  }

  function NextSignals(signals: Option<Message<seq<seq<real>>>>, e: BankEvent): Option<Message<seq<seq<real>>>> {
    if e.BankSignals? then Some(e.signals) else signals
  }

  /** What the markers emit, in id order. */
  function Outputs(ids: seq<string>, slots: seq<Option<Message<Payload>>>,
                   signals: Option<Message<seq<seq<real>>>>, e: BankEvent): seq<Message<SignalData>>
    requires |slots| == |ids|
  {
    if ids == [] then []
    else
      Outputs(ids[..|ids| - 1], slots[..|slots| - 1], signals, e) +
      MarkerOutput(ids[|ids| - 1], slots[|slots| - 1], signals, e)
  }

  /** Status and sample index actions are filtered per marker but joined with
      nothing: they leave every slot as it is and make no marker emit. */
  lemma StatusAndSampleAreInert(id: string, status: string, idx: int, seeds: Seeds, markerId: string,
                                slot: Option<Message<Payload>>, signals: Option<Message<seq<seq<real>>>>)
    ensures BmStatus(id, status, seeds).Ok? ==>
              var e := BankAct(BmStatus(id, status, seeds).value);
              NextSlot(slot, markerId, e) == slot && MarkerOutput(markerId, slot, signals, e) == []
    ensures var e := BankAct(BmSampleIdx(id, idx, seeds));
            NextSlot(slot, markerId, e) == slot && MarkerOutput(markerId, slot, signals, e) == []
  {
    var sample := BmSampleIdx(id, idx, seeds);
    SetsIndexOfMeaning(sample, markerId);
    assert sample.tag[8] != MARKER_SIGNAL_IDX[8];
    if BmStatus(id, status, seeds).Ok? {
      var st := BmStatus(id, status, seeds).value;
      SetsIndexOfMeaning(st, markerId);
      assert st.tag[8] != MARKER_SIGNAL_IDX[8];
    }
  }

  /** A signal index built for one of the bank's ids sets the index of that
      marker and of no other. */
  lemma SignalIndexReachesItsMarker(count: int, k: int, idx: int, seeds: Seeds)
    requires count >= 1 && 0 <= k < count && idx >= 0
    ensures var ids := MarkerIds(count).value;
            var m := BmSignalIdx(ids[k], idx, seeds).value;
            m.payload.Index? &&
            forall j :: 0 <= j < count ==> (SetsIndexOf(m, ids[j]) <==> j == k)
  {
    var ids := MarkerIds(count).value;
    var m := BmSignalIdx(ids[k], idx, seeds).value;
    MarkerIdsShape(count);
    forall j | 0 <= j < count ensures SetsIndexOf(m, ids[j]) <==> j == k {
      SignalIndexRouting(m, ids[k], ids[j]);
    }
  }

  lemma SignalIndexRouting(m: Message<Payload>, id: string, other: string)
    requires '/' !in id && m.status == READY && m.tag == MARKER_SIGNAL_IDX + "/" + id
    ensures SetsIndexOf(m, other) <==> other == id
  {
    SetsIndexOfMeaning(m, other);
    SuffixRouting(m, MARKER_SIGNAL_IDX, id, other);
    assert m.tag[..|MARKER_SIGNAL_IDX|] == MARKER_SIGNAL_IDX;
  }

  lemma OutputsStep(ids: seq<string>, ns: seq<Option<Message<Payload>>>, slot: Option<Message<Payload>>,
                    signals: Option<Message<seq<seq<real>>>>, e: BankEvent, j: nat)
    requires j < |ids| && |ns| == j
    ensures Outputs(ids[..j + 1], ns + [slot], signals, e) ==
            Outputs(ids[..j], ns, signals, e) + MarkerOutput(ids[j], slot, signals, e)
  {
    assert ids[..j + 1][..j] == ids[..j];
    assert (ns + [slot])[..j] == ns;
  }

  /** The bank of `create_markers`: the markers' ids, each one's latest signal
      index, and the latest signals. */
  class MarkerBank {
    const ids: seq<string>
    var slots: seq<Option<Message<Payload>>>
    var signals: Option<Message<seq<seq<real>>>>

    predicate Valid()
      reads this
    {
      |slots| == |ids|
    }

    /** `count` markers, none with an index yet. */
    constructor (count: int)
      requires MarkerIds(count).Ok?
      ensures ids == MarkerIds(count).value && Valid()
      ensures slots == seq(count, _ => None) && signals.None?
    {
      ids := MarkerIds(count).value;
      slots := seq(count, _ => None);
      signals := None;
    }

    /** Delivers one event; the markers emit in id order. */
    method Step(e: BankEvent) returns (out: seq<Message<SignalData>>)
      requires Valid()
      modifies this
      ensures Valid()
      ensures signals == NextSignals(old(signals), e)
      ensures forall j :: 0 <= j < |ids| ==> slots[j] == NextSlot(old(slots)[j], ids[j], e)
      ensures out == Outputs(ids, slots, signals, e)
    {
      var sig := NextSignals(signals, e);
      var cur := slots;
      var j := 0;
      var newSlots: seq<Option<Message<Payload>>> := [];
      out := [];
      while j < |ids|
        invariant 0 <= j <= |ids| && |newSlots| == j && |cur| == |ids|
        invariant forall k :: 0 <= k < j ==> newSlots[k] == NextSlot(cur[k], ids[k], e)
        invariant out == Outputs(ids[..j], newSlots, sig, e)
      {
        var slot := NextSlot(cur[j], ids[j], e);
        OutputsStep(ids, newSlots, slot, sig, e, j);
        newSlots := newSlots + [slot];
        out := out + MarkerOutput(ids[j], slot, sig, e);
        j := j + 1;
      }
      assert ids[..j] == ids;
      slots, signals := newSlots, sig;
      assert ids[..|ids|] == ids;
    }
  }
}
