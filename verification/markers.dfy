/** Marker actions, the per-marker extractors and the dynamic registry of
    per-marker pipelines (src/moebius/core/markers.py).

    The source wires each tracked marker as a group of Rx streams. Here the
    sequential meaning of that wiring is a registry: the live pipelines in
    track order (each with the latest index update it has seen) and one
    latest-value slot per shared source stream; every incoming event updates
    the registry and yields the messages the pipelines emit in reaction. */
module Markers {
  import opened Wrappers
  import opened Messages

  const MARKER_TRACK := "MARKER_TRACK"
  const MARKER_UNTRACK := "MARKER_UNTRACK"
  const MARKER_UNTRACK_ALL := "MARKER_UNTRACK_ALL"
  const MARKER_UPDATE_SIGNAL_IDX := "MARKER_UPDATE_SIGNAL_IDX"
  const MARKER_UPDATE_SAMPLE_IDX := "MARKER_UPDATE_SAMPLE_IDX"
  const MARKER_SIGNAL := "MARKER_SIGNAL"
  const MARKER_ENERGY := "MARKER_ENERGY"
  const MARKER_FFT := "MARKER_FFT"

  /** Payload of a marker action: a marker id (track, untrack), `None`
      (untrack all) or the map `{marker_id, data}` of an index update, whose
      index is `None` when the caller keeps the constructor's default. */
  datatype Action = Id(id: string) | NoPayload | IndexUpdate(marker_id: string, data: Option<int>)

  // ---------------------------------------------------------------------------
  // Action constructors

  function Track(markerId: string, seeds: Seeds): (m: Message<Action>)
    ensures m.status == READY && m.tag == MARKER_TRACK
    ensures m.payload == Id(markerId) && m.seeds == seeds
  {
    Ready(MARKER_TRACK, Id(markerId), seeds)
  }

  function Untrack(markerId: string, seeds: Seeds): (m: Message<Action>)
    ensures m.status == READY && m.tag == MARKER_UNTRACK
    ensures m.payload == Id(markerId) && m.seeds == seeds
  {
    Ready(MARKER_UNTRACK, Id(markerId), seeds)
  }

  function UntrackAll(seeds: Seeds): (m: Message<Action>)
    ensures m.status == READY && m.tag == MARKER_UNTRACK_ALL
    ensures m.payload == NoPayload && m.seeds == seeds
  {
    Ready(MARKER_UNTRACK_ALL, NoPayload, seeds)
  }

  /** `signalIdx` is `None` for the default `signal_idx=None`. */
  function UpdateSignalIdx(markerId: string, signalIdx: Option<int>, seeds: Seeds): (m: Message<Action>)
    ensures m.status == READY && m.tag == MARKER_UPDATE_SIGNAL_IDX
    ensures m.payload == IndexUpdate(markerId, signalIdx) && m.seeds == seeds
  {
    Ready(MARKER_UPDATE_SIGNAL_IDX, IndexUpdate(markerId, signalIdx), seeds)
  }

  /** `sampleIdx` is `None` for the default `sample_idx=None`. */
  function UpdateSampleIdx(markerId: string, sampleIdx: Option<int>, seeds: Seeds): (m: Message<Action>)
    ensures m.status == READY && m.tag == MARKER_UPDATE_SAMPLE_IDX
    ensures m.payload == IndexUpdate(markerId, sampleIdx) && m.seeds == seeds
  {
    Ready(MARKER_UPDATE_SAMPLE_IDX, IndexUpdate(markerId, sampleIdx), seeds)
  }

  // ---------------------------------------------------------------------------
  // Routing of actions

  /** `oftype('MARKER...', READY)`: the actions that reach the marker logic. */
  const MarkerActions := OfType(One("MARKER" + ELLIPSIS), One(READY))
  const TrackActions := OfType(One(MARKER_TRACK))
  const UntrackActions := OfType(One(MARKER_UNTRACK))
  const UntrackAllActions := OfType(One(MARKER_UNTRACK_ALL))
  const SignalIndexActions := OfType(One(MARKER_UPDATE_SIGNAL_IDX))

  /** Which of the filtered action streams a message reaches. The five exact
      tags are distinct, so a message reaches at most one of them; sample index
      updates are filtered but feed nothing. */
  datatype ActionKind =
    | NotForMarkers | TrackAction | UntrackAction | UntrackAllAction
    | SignalIndexAction | OtherMarkerAction

  function KindOf(m: Message<Action>): ActionKind {
    if !Passes(MarkerActions, m) then NotForMarkers
    else if Passes(TrackActions, m) then TrackAction
    else if Passes(UntrackActions, m) then UntrackAction
    else if Passes(UntrackAllActions, m) then UntrackAllAction
    else if Passes(SignalIndexActions, m) then SignalIndexAction
    else OtherMarkerAction
  }

  /** Only READY actions whose tag starts with `MARKER` reach the marker logic,
      and among those the exact tag selects the stream. */
  lemma KindMeaning(m: Message<Action>)
    ensures KindOf(m) ==
            if !(StartsWith(m.tag, "MARKER") && m.status == READY) then NotForMarkers
            else if m.tag == MARKER_TRACK then TrackAction
            else if m.tag == MARKER_UNTRACK then UntrackAction
            else if m.tag == MARKER_UNTRACK_ALL then UntrackAllAction
            else if m.tag == MARKER_UPDATE_SIGNAL_IDX then SignalIndexAction
            else OtherMarkerAction
  {
    ActionTagsHaveNoDots();
    PrefixTagFilter("MARKER", One(READY), m);
    ExactTagFilter(MARKER_TRACK, Unconstrained, m);
    ExactTagFilter(MARKER_UNTRACK, Unconstrained, m);
    ExactTagFilter(MARKER_UNTRACK_ALL, Unconstrained, m);
    ExactTagFilter(MARKER_UPDATE_SIGNAL_IDX, Unconstrained, m);
  }

  lemma ActionTagsHaveNoDots()
    ensures '.' !in "MARKER"
    ensures '.' !in MARKER_TRACK && '.' !in MARKER_UNTRACK && '.' !in MARKER_UNTRACK_ALL
    ensures '.' !in MARKER_UPDATE_SIGNAL_IDX
  {
  }

  /** Each constructor's message reaches the stream of its own kind; a sample
      index update reaches none. */
  lemma ConstructorsReachTheirStream(id: string, i: Option<int>, seeds: Seeds)
    ensures KindOf(Track(id, seeds)) == TrackAction
    ensures KindOf(Untrack(id, seeds)) == UntrackAction
    ensures KindOf(UntrackAll(seeds)) == UntrackAllAction
    ensures KindOf(UpdateSignalIdx(id, i, seeds)) == SignalIndexAction
    ensures KindOf(UpdateSampleIdx(id, i, seeds)) == OtherMarkerAction
  {
    var all := [Track(id, seeds), Untrack(id, seeds), UntrackAll(seeds),
                UpdateSignalIdx(id, i, seeds), UpdateSampleIdx(id, i, seeds)];
    forall j | 0 <= j < 5 ensures StartsWith(all[j].tag, "MARKER") {
      assert all[j].tag[..6] == "MARKER";
    }
    KindMeaning(all[0]);
    KindMeaning(all[1]);
    KindMeaning(all[2]);
    KindMeaning(all[3]);
    KindMeaning(all[4]);
  }

  // ---------------------------------------------------------------------------
  // Extractors

  /** `xs[i]` with Python's meaning: a negative index counts from the end;
      `None` stands for the `IndexError`. */
  function PyIndex<T>(xs: seq<T>, i: int): (r: Option<T>)
    ensures r.Some? <==> -|xs| <= i < |xs|
    ensures r.Some? ==> r.value == xs[i % |xs|]
  {
    if 0 <= i < |xs| then Some(xs[i])
    else if -|xs| <= i < 0 then Some(xs[|xs| + i])
    else None
  }

  /** `xs[ks]` for an integer array `ks` (numpy's integer-array indexing):
      each index is looked up as by `PyIndex`; `None` stands for the
      `IndexError` raised when one of them is out of range. */
  function PyTake<T>(xs: seq<T>, ks: seq<int>): (r: Option<seq<T>>)
    ensures r.Some? <==> forall k :: 0 <= k < |ks| ==> -|xs| <= ks[k] < |xs|
    ensures r.Some? ==> |r.value| == |ks|
    ensures r.Some? ==> forall k :: 0 <= k < |ks| ==> |xs| > 0 && r.value[k] == xs[ks[k] % |xs|]
  {
    if ks == [] then Some([])
    else
      var init := PyTake(xs, ks[..|ks| - 1]);
      var last := PyIndex(xs, ks[|ks| - 1]);
      if init.Some? && last.Some? then Some(init.value + [last.value]) else None
  }

  /** A resource record (`Resource(rtype, rn, ri, iir)`): resource names, and per
      signal the resource index and the index inside that resource. */
  datatype Resource = Resource(rtype: string, rn: seq<string>, ri: seq<int>, iir: seq<int>)

  /** The resource record of one signal; NOT_AVAILABLE fields are `None`.
      `MarkedColumns` is the record built for the index `None`, whose fields
      are whole arrays. */
  datatype MarkedResource =
    | MarkedResource(rtype: string, rn: Option<string>, ri: Option<int>, iir: Option<int>)
    | MarkedColumns(rtype: string, rns: Option<seq<string>>, ris: Option<seq<int>>, iirs: Option<seq<int>>)

  /** The `data` of a `Mark`. Indexing with `None` (numpy's `x[None]`) gives
      the whole array under a new leading axis: `AllRows` and `AllEnergies`.
      `Spectrum` and `Spectra` are the FFT of a row, or of every row, at a
      sampling rate, kept as the pair they are computed from. */
  datatype Data =
    | NotAvailable
    | Row(row: seq<real>)
    | AllRows(rows: seq<seq<real>>)
    | Energy(energy: real)
    | AllEnergies(energies: seq<real>)
    | Resources(items: seq<MarkedResource>)
    | Spectrum(signal: seq<real>, rate: real)
    | Spectra(signals: seq<seq<real>>, rate: real)

  datatype Mark = Mark(marker_id: Action, data: Data)

  /** A signal index update, the only action an index slot holds. */
  type IndexMessage = m: Message<Action> | m.payload.IndexUpdate?
    witness Message("", "", IndexUpdate("", None), map[])

  type Signals = seq<seq<real>>

  /** `extract_signal`: the indexed row of the latest signals, or NOT_AVAILABLE
      for the `IndexError`; the default index `None` takes every row. */
  function ExtractSignal(key: Action, idx: IndexMessage, src: Message<Signals>): (m: Message<Mark>)
    ensures m.status == READY && m.tag == MARKER_SIGNAL && m.payload.marker_id == key
    ensures idx.payload.data.None? ==> m.payload.data == AllRows(src.payload)
    ensures idx.payload.data.Some? ==>
              (m.payload.data.Row? <==> -|src.payload| <= idx.payload.data.value < |src.payload|)
    ensures idx.payload.data.Some? && m.payload.data.Row? ==>
              m.payload.data.row == src.payload[idx.payload.data.value % |src.payload|]
    ensures idx.payload.data.Some? && !m.payload.data.Row? ==> m.payload.data == NotAvailable
    ensures m.seeds == CombinedSeeds([Some(idx.seeds), Some(src.seeds)])
  {
    var data := match idx.payload.data
      case None => AllRows(src.payload)
      case Some(i) =>
        (match PyIndex(src.payload, i)
         case Some(row) => Row(row)
         case None => NotAvailable);
    Ready(MARKER_SIGNAL, Mark(key, data), CombinedSeeds([Some(idx.seeds), Some(src.seeds)]))
  }

  /** `extract_energy`: the indexed entry of the latest energies, or
      NOT_AVAILABLE; the default index `None` takes every entry. */
  function ExtractEnergy(key: Action, idx: IndexMessage, src: Message<seq<real>>): (m: Message<Mark>)
    ensures m.status == READY && m.tag == MARKER_ENERGY && m.payload.marker_id == key
    ensures idx.payload.data.None? ==> m.payload.data == AllEnergies(src.payload)
    ensures idx.payload.data.Some? ==>
              (m.payload.data.Energy? <==> -|src.payload| <= idx.payload.data.value < |src.payload|)
    ensures idx.payload.data.Some? && m.payload.data.Energy? ==>
              m.payload.data.energy == src.payload[idx.payload.data.value % |src.payload|]
    ensures idx.payload.data.Some? && !m.payload.data.Energy? ==> m.payload.data == NotAvailable
    ensures m.seeds == CombinedSeeds([Some(idx.seeds), Some(src.seeds)])
  {
    var data := match idx.payload.data
      case None => AllEnergies(src.payload)
      case Some(i) =>
        (match PyIndex(src.payload, i)
         case Some(e) => Energy(e)
         case None => NotAvailable);
    Ready(MARKER_ENERGY, Mark(key, data), CombinedSeeds([Some(idx.seeds), Some(src.seeds)]))
  }

  /** One iteration of `extract_resource`: the three lookups succeed together or
      all three fields are NOT_AVAILABLE; the type is copied. */
  function MarkResource(r: Resource, i: int): (m: MarkedResource)
    ensures m.MarkedResource? && m.rtype == r.rtype
    ensures m.ri.Some? == m.iir.Some? == m.rn.Some?
    ensures m.ri.Some? <==>
            -|r.ri| <= i < |r.ri| && -|r.iir| <= i < |r.iir| &&
            -|r.rn| <= r.ri[i % |r.ri|] < |r.rn|
    ensures m.ri.Some? ==>
            m.ri.value == r.ri[i % |r.ri|] && m.iir.value == r.iir[i % |r.iir|] &&
            m.rn.value == r.rn[m.ri.value % |r.rn|]
  {
    match (PyIndex(r.ri, i), PyIndex(r.iir, i))
    case (Some(ri), Some(iir)) =>
      (match PyIndex(r.rn, ri)
       case Some(rn) => MarkedResource(r.rtype, Some(rn), Some(ri), Some(iir))
       case None => MarkedResource(r.rtype, None, None, None))
    case _ => MarkedResource(r.rtype, None, None, None)
  }

  /** One iteration of `extract_resource` for the index `None`: `ri[None]` and
      `iir[None]` are the whole index arrays, and `rn[ri[None]]` names each of
      them or raises `IndexError` when one is out of range, and then all three
      fields are NOT_AVAILABLE. */
  function MarkColumns(r: Resource): (m: MarkedResource)
    ensures m.MarkedColumns? && m.rtype == r.rtype
    ensures m.ris.Some? == m.iirs.Some? == m.rns.Some?
    ensures m.ris.Some? <==> forall k :: 0 <= k < |r.ri| ==> -|r.rn| <= r.ri[k] < |r.rn|
    ensures m.ris.Some? ==>
              m.ris.value == r.ri && m.iirs.value == r.iir && |m.rns.value| == |r.ri| &&
              forall k :: 0 <= k < |r.ri| ==> m.rns.value[k] == r.rn[r.ri[k] % |r.rn|]
  {
    match PyTake(r.rn, r.ri)
    case Some(names) => MarkedColumns(r.rtype, Some(names), Some(r.ri), Some(r.iir))
    case None => MarkedColumns(r.rtype, None, None, None)
  }

  /** The record of one resource at the index of an update. */
  function MarkResourceAt(r: Resource, i: Option<int>): MarkedResource {
    if i.Some? then MarkResource(r, i.value) else MarkColumns(r)
  }

  /** The list `extract_resource` builds: one record per resource, in order. */
  function MarkedResources(rs: seq<Resource>, i: Option<int>): (items: seq<MarkedResource>)
    ensures |items| == |rs|
    ensures forall j :: 0 <= j < |rs| ==> items[j] == MarkResourceAt(rs[j], i)
  {
    if rs == [] then []
    else MarkedResources(rs[..|rs| - 1], i) + [MarkResourceAt(rs[|rs| - 1], i)]
  }

  /** The message `extract_resource` returns; its tag is MARKER_ENERGY. */
  function ResourceMessage(key: Action, idx: IndexMessage, src: Message<seq<Resource>>): (m: Message<Mark>)
    ensures m.status == READY && m.tag == MARKER_ENERGY && m.payload.marker_id == key
    ensures m.payload.data.Resources? && |m.payload.data.items| == |src.payload|
    ensures forall k :: 0 <= k < |src.payload| ==>
              m.payload.data.items[k] == MarkResourceAt(src.payload[k], idx.payload.data)
    ensures m.seeds == CombinedSeeds([Some(idx.seeds), Some(src.seeds)])
  {
    Ready(MARKER_ENERGY, Mark(key, Resources(MarkedResources(src.payload, idx.payload.data))),
          CombinedSeeds([Some(idx.seeds), Some(src.seeds)]))
  }

  /** The loop of `extract_resource`. */
  method ExtractResource(key: Action, idx: IndexMessage, src: Message<seq<Resource>>) returns (m: Message<Mark>)
    ensures m == ResourceMessage(key, idx, src)
  {
    var seeds := CombineSeeds([Some(idx.seeds), Some(src.seeds)]);
    var resources := src.payload;
    var data: seq<MarkedResource> := [];
    for j := 0 to |resources|
      invariant data == MarkedResources(resources[..j], idx.payload.data)
    {
      assert resources[..j + 1][..j] == resources[..j];
      var r := resources[j];
      var i := idx.payload.data;
      if i.Some? {
        data := data + [MarkResource(r, i.value)];
      } else {
        data := data + [MarkColumns(r)];
      }
    }
    assert resources[..|resources|] == resources;
    m := Ready(MARKER_ENERGY, Mark(key, Resources(data)), seeds);
  }

  /** `fft_pipe`: a missing signal gives a MARKER_FFT carrying NOT_AVAILABLE
      instead of a spectrum. */
  function FftPipe(key: Action, sig: Message<Mark>, sr: Message<real>): (m: Message<Mark>)
    requires sig.payload.data.Row? || sig.payload.data.AllRows? || sig.payload.data.NotAvailable?
    ensures m.status == READY && m.tag == MARKER_FFT && m.payload.marker_id == key
    ensures sig.payload.data.NotAvailable? ==> m.payload.data == NotAvailable
    ensures sig.payload.data.Row? ==> m.payload.data == Spectrum(sig.payload.data.row, sr.payload)
    ensures sig.payload.data.AllRows? ==> m.payload.data == Spectra(sig.payload.data.rows, sr.payload)
    ensures m.seeds == CombinedSeeds([Some(sig.seeds), Some(sr.seeds)])
  {
    var seeds := CombinedSeeds([Some(sig.seeds), Some(sr.seeds)]);
    match sig.payload.data
    case Row(row) => Ready(MARKER_FFT, Mark(key, Spectrum(row, sr.payload)), seeds)
    case AllRows(rows) => Ready(MARKER_FFT, Mark(key, Spectra(rows, sr.payload)), seeds)
    case NotAvailable => Ready(MARKER_FFT, Mark(key, NotAvailable), seeds)
  }

  /** The seeds of every extraction keep the lineage of both joined messages. */
  lemma ExtractionKeepsLineage(key: Action, idx: IndexMessage, signals: Message<Signals>)
    ensures var m := ExtractSignal(key, idx, signals);
            m.seeds.Keys == idx.seeds.Keys + signals.seeds.Keys &&
            (forall k :: k in idx.seeds ==> idx.seeds[k] <= m.seeds[k]) &&
            (forall k :: k in signals.seeds ==> signals.seeds[k] <= m.seeds[k])
  {
    CombinedSeedsKeepsInputs(idx.seeds, signals.seeds);
  }

  // ---------------------------------------------------------------------------
  // The registry of live pipelines

  /** One live marker pipeline: the payload of the track that started it and
      the latest index update addressed to it. */
  datatype Pipeline = Pipeline(key: Action, index: Option<IndexMessage>)

  /** The latest value replayed by each shared source stream. */
  datatype Sources = Sources(signals: Option<Message<Signals>>,
                             energies: Option<Message<seq<real>>>,
                             resources: Option<Message<seq<Resource>>>,
                             rate: Option<Message<real>>)

  const NoSources := Sources(None, None, None, None)

  datatype Registry = Registry(pipelines: seq<Pipeline>, sources: Sources)

  /** One message arriving on one of the input streams. */
  datatype Event =
    | Act(action: Message<Action>)
    | NewSignals(signals: Message<Signals>)
    | NewEnergies(energies: Message<seq<real>>)
    | NewResources(resources: Message<seq<Resource>>)
    | NewRate(rate: Message<real>)

  /** What a pipeline's joins react to. */
  datatype Trigger = IndexFor(marker_id: string) | SignalsArrived | EnergiesArrived | ResourcesArrived | RateArrived

  /** Reading `payload.marker_id` of a signal index update requires the map
      payload; the source fails on any other. */
  predicate WellFormed(e: Event) {
    e.Act? && KindOf(e.action) == SignalIndexAction ==> e.action.payload.IndexUpdate?
  }

  function KeysOf(ps: seq<Pipeline>): (ks: seq<Action>)
    ensures |ks| == |ps| && forall j :: 0 <= j < |ps| ==> ks[j] == ps[j].key
  {
    if ps == [] then [] else KeysOf(ps[..|ps| - 1]) + [ps[|ps| - 1].key]
  }

  /** The pipelines left running after an untrack of `key`. */
  function Killed(ps: seq<Pipeline>, key: Action): (r: seq<Pipeline>)
    ensures forall p :: p in r <==> p in ps && p.key != key
  {
    if ps == [] then []
    else
      var last := ps[|ps| - 1];
      Killed(ps[..|ps| - 1], key) + (if last.key == key then [] else [last])
  }

  /** The pipelines after an index update: those of its marker id record it. */
  function Fed(ps: seq<Pipeline>, m: IndexMessage): (r: seq<Pipeline>)
    ensures |r| == |ps|
    ensures forall j :: 0 <= j < |ps| ==>
              r[j] == if ps[j].key == Id(m.payload.marker_id) then ps[j].(index := Some(m)) else ps[j]
  {
    if ps == [] then []
    else
      var last := ps[|ps| - 1];
      Fed(ps[..|ps| - 1], m) +
      [if last.key == Id(m.payload.marker_id) then last.(index := Some(m)) else last]
  }

  /** The signal join; it needs an index and a signals value. */
  function SignalOut(p: Pipeline, src: Sources): seq<Message<Mark>>
    requires p.index.Some?
  {
    if src.signals.Some? then [ExtractSignal(p.key, p.index.value, src.signals.value)] else []
  }

  /** The FFT join of the extracted signal with the sampling rate. */
  function FftOut(p: Pipeline, src: Sources): seq<Message<Mark>>
    requires p.index.Some?
  {
    if src.signals.Some? && src.rate.Some? then
      [FftPipe(p.key, ExtractSignal(p.key, p.index.value, src.signals.value), src.rate.value)]
    else []
  }

  function EnergyOut(p: Pipeline, src: Sources): seq<Message<Mark>>
    requires p.index.Some?
  {
    if src.energies.Some? then [ExtractEnergy(p.key, p.index.value, src.energies.value)] else []
  }

  function ResourceOut(p: Pipeline, src: Sources): seq<Message<Mark>>
    requires p.index.Some?
  {
    if src.resources.Some? then [ResourceMessage(p.key, p.index.value, src.resources.value)] else []
  }

  /** What one pipeline emits when `t` happens, in the order its merged streams
      subscribe: signal, FFT, energy, resources. A join emits only once both of
      its inputs have a value, and then on every new value of either. */
  function PipelineOutputs(p: Pipeline, src: Sources, t: Trigger): seq<Message<Mark>> {
    if p.index.None? || (t.IndexFor? && p.key != Id(t.marker_id)) then []
    else
      var signalFires := t.IndexFor? || t.SignalsArrived?;
      (if signalFires then SignalOut(p, src) else []) +
      (if signalFires || t.RateArrived? then FftOut(p, src) else []) +
      (if t.IndexFor? || t.EnergiesArrived? then EnergyOut(p, src) else []) +
      (if t.IndexFor? || t.ResourcesArrived? then ResourceOut(p, src) else [])
  }

  /** What all pipelines emit, in track order. */
  function Emissions(ps: seq<Pipeline>, src: Sources, t: Trigger): seq<Message<Mark>> {
    if ps == [] then []
    else Emissions(ps[..|ps| - 1], src, t) + PipelineOutputs(ps[|ps| - 1], src, t)
  }

  /** The registry after an event. */
  function Next(s: Registry, e: Event): Registry
    requires WellFormed(e)
  {
    match e
    case Act(m) =>
      (match KindOf(m)
       case TrackAction => s.(pipelines := s.pipelines + [Pipeline(m.payload, None)])
       case UntrackAction => s.(pipelines := Killed(s.pipelines, m.payload))
       case UntrackAllAction => s.(pipelines := [])
       case SignalIndexAction => s.(pipelines := Fed(s.pipelines, m))
       case _ => s)
    case NewSignals(x) => s.(sources := s.sources.(signals := Some(x)))
    case NewEnergies(x) => s.(sources := s.sources.(energies := Some(x)))
    case NewResources(x) => s.(sources := s.sources.(resources := Some(x)))
    case NewRate(x) => s.(sources := s.sources.(rate := Some(x)))
  }

  /** The joins an event can fire, if any. */
  function TriggerOf(e: Event): Option<Trigger>
    requires WellFormed(e)
  {
    match e
    case Act(m) =>
      if KindOf(m) == SignalIndexAction then Some(IndexFor(m.payload.marker_id)) else None
    case NewSignals(_) => Some(SignalsArrived)
    case NewEnergies(_) => Some(EnergiesArrived)
    case NewResources(_) => Some(ResourcesArrived)
    case NewRate(_) => Some(RateArrived)
  }

  /** The messages the pipelines emit in reaction to an event; every join reads
      the registry as the event left it. */
  function Emitted(s: Registry, e: Event): seq<Message<Mark>>
    requires WellFormed(e)
  {
    match TriggerOf(e)
    case None => []
    case Some(t) => Emissions(Next(s, e).pipelines, Next(s, e).sources, t)
  }

  method Kill(ps: seq<Pipeline>, key: Action) returns (kept: seq<Pipeline>)
    ensures kept == Killed(ps, key)
  {
    kept := [];
    for j := 0 to |ps|
      invariant kept == Killed(ps[..j], key)
    {
      assert ps[..j + 1][..j] == ps[..j];
      if ps[j].key != key {
        kept := kept + [ps[j]];
      }
    }
    assert ps[..|ps|] == ps;
  }

  method Feed(ps: seq<Pipeline>, m: IndexMessage) returns (fed: seq<Pipeline>)
    ensures fed == Fed(ps, m)
  {
    fed := [];
    for j := 0 to |ps|
      invariant fed == Fed(ps[..j], m)
    {
      assert ps[..j + 1][..j] == ps[..j];
      if ps[j].key == Id(m.payload.marker_id) {
        fed := fed + [ps[j].(index := Some(m))];
      } else {
        fed := fed + [ps[j]];
      }
    }
    assert ps[..|ps|] == ps;
  }

  method EmitAll(ps: seq<Pipeline>, src: Sources, t: Trigger) returns (out: seq<Message<Mark>>)
    ensures out == Emissions(ps, src, t)
  {
    out := [];
    for j := 0 to |ps|
      invariant out == Emissions(ps[..j], src, t)
    {
      assert ps[..j + 1][..j] == ps[..j];
      out := out + PipelineOutputs(ps[j], src, t);
    }
    assert ps[..|ps|] == ps;
  }

  /** The marker pipeline created by `create_markers_pipeline`, as a registry
      updated one event at a time. */
  class MarkerRegistry {
    var pipelines: seq<Pipeline>
    var sources: Sources

    function State(): Registry
      reads this
    {
      Registry(pipelines, sources)
    }

    /** No marker is tracked and no source has produced a value yet. */
    constructor ()
      ensures State() == Registry([], NoSources)
    {
      pipelines := [];
      sources := NoSources;
    }

    /** Delivers one event; returns what the pipelines emit in reaction. */
    method Step(e: Event) returns (out: seq<Message<Mark>>)
      requires WellFormed(e)
      modifies this
      ensures State() == Next(old(State()), e)
      ensures out == Emitted(old(State()), e)
    {
      match e {
        case Act(m) =>
          var kind := KindOf(m);
          if kind == TrackAction {
            pipelines := pipelines + [Pipeline(m.payload, None)];
          } else if kind == UntrackAction {
            pipelines := Kill(pipelines, m.payload);
          } else if kind == UntrackAllAction {
            pipelines := [];
          } else if kind == SignalIndexAction {
            pipelines := Feed(pipelines, m);
          }
        case NewSignals(x) => sources := sources.(signals := Some(x));
        case NewEnergies(x) => sources := sources.(energies := Some(x));
        case NewResources(x) => sources := sources.(resources := Some(x));
        case NewRate(x) => sources := sources.(rate := Some(x));
      }
      var t := TriggerOf(e);
      if t.Some? {
        out := EmitAll(pipelines, sources, t.value);
      } else {
        out := [];
      }
    }
  }

  // ---------------------------------------------------------------------------
  // Properties of the registry

  /** An action that is not READY, not a MARKER action, or a sample index
      update changes nothing and emits nothing. */
  lemma IgnoredActionsDoNothing(s: Registry, m: Message<Action>)
    requires KindOf(m) == NotForMarkers || KindOf(m) == OtherMarkerAction
    ensures Next(s, Act(m)) == s && Emitted(s, Act(m)) == []
  {
  }

  /** Every track starts one more pipeline for its payload, even when that id
      is already tracked; the others keep running. Tracking emits nothing. */
  lemma TrackStartsAPipeline(s: Registry, m: Message<Action>)
    requires KindOf(m) == TrackAction
    ensures KeysOf(Next(s, Act(m)).pipelines) == KeysOf(s.pipelines) + [m.payload]
    ensures Next(s, Act(m)).pipelines[|s.pipelines|].index.None?
    ensures Emitted(s, Act(m)) == []
  {
    var r := Next(s, Act(m)).pipelines;
    assert r == s.pipelines + [Pipeline(m.payload, None)];
    assert r[..|r| - 1] == s.pipelines;
  }

  /** An untrack stops every pipeline of its payload and only those. */
  lemma UntrackStopsItsPipelines(s: Registry, m: Message<Action>)
    requires KindOf(m) == UntrackAction
    ensures forall p :: p in Next(s, Act(m)).pipelines <==> p in s.pipelines && p.key != m.payload
    ensures Next(s, Act(m)).sources == s.sources
    ensures Emitted(s, Act(m)) == []
  {
  }

  /** An untrack-all stops every pipeline. */
  lemma UntrackAllStopsEverything(s: Registry, m: Message<Action>)
    requires KindOf(m) == UntrackAllAction
    ensures Next(s, Act(m)).pipelines == [] && Emitted(s, Act(m)) == []
  {
  }

  /** Every emitted message comes from a pipeline that the event found live and
      that has seen an index update. */
  lemma {:induction false} EmissionsComeFromPipelines(ps: seq<Pipeline>, src: Sources, t: Trigger, o: Message<Mark>)
    requires o in Emissions(ps, src, t)
    ensures exists p :: p in ps && p.index.Some? && o in PipelineOutputs(p, src, t)
  {
    var init, last := ps[..|ps| - 1], ps[|ps| - 1];
    if o in Emissions(init, src, t) {
      EmissionsComeFromPipelines(init, src, t, o);
      var p :| p in init && p.index.Some? && o in PipelineOutputs(p, src, t);
      assert p in ps;
    } else {
      assert o in PipelineOutputs(last, src, t);
      assert last in ps;
    }
  }

  /** What one pipeline emits is addressed to its own id, and each message is
      an extraction from the pipeline's latest index and the latest source
      value; an index update reaches only the pipelines of its marker id. */
  lemma PipelineOutputsShape(p: Pipeline, src: Sources, t: Trigger, o: Message<Mark>)
    requires o in PipelineOutputs(p, src, t)
    ensures p.index.Some? && o.payload.marker_id == p.key
    ensures t.IndexFor? ==> p.key == Id(t.marker_id)
    ensures o.tag == MARKER_SIGNAL ==>
              src.signals.Some? && o == ExtractSignal(p.key, p.index.value, src.signals.value)
    ensures o.tag == MARKER_FFT ==>
              src.signals.Some? && src.rate.Some? &&
              o == FftPipe(p.key, ExtractSignal(p.key, p.index.value, src.signals.value), src.rate.value)
    ensures o.tag == MARKER_ENERGY ==>
              (src.energies.Some? && o == ExtractEnergy(p.key, p.index.value, src.energies.value)) ||
              (src.resources.Some? && o == ResourceMessage(p.key, p.index.value, src.resources.value))
  {
  }

  /** A pipeline stops producing once untracked: everything emitted belongs to
      a pipeline still live after the event, one that has seen an index. */
  lemma OnlyLivePipelinesEmit(s: Registry, e: Event, o: Message<Mark>)
    requires WellFormed(e) && o in Emitted(s, e)
    ensures exists p :: p in Next(s, e).pipelines && p.index.Some? && o.payload.marker_id == p.key
  {
    var t := TriggerOf(e).value;
    EmissionsComeFromPipelines(Next(s, e).pipelines, Next(s, e).sources, t, o);
    var p :| p in Next(s, e).pipelines && p.index.Some? && o in PipelineOutputs(p, Next(s, e).sources, t);
    PipelineOutputsShape(p, Next(s, e).sources, t, o);
  }

  /** An index update records itself in exactly the pipelines of its marker id,
      and only those pipelines emit in reaction to it. */
  lemma IndexUpdateReachesItsMarker(s: Registry, m: Message<Action>, o: Message<Mark>)
    requires KindOf(m) == SignalIndexAction && m.payload.IndexUpdate?
    ensures var r := Next(s, Act(m)).pipelines;
            |r| == |s.pipelines| &&
            forall j :: 0 <= j < |r| ==>
              (r[j].key == Id(m.payload.marker_id) ==> r[j].index == Some(m)) &&
              (r[j].key != Id(m.payload.marker_id) ==> r[j] == s.pipelines[j])
    ensures o in Emitted(s, Act(m)) ==> o.payload.marker_id == Id(m.payload.marker_id)
  {
    IndexUpdateFeeds(s, m);
    FedAddressesItsMarker(s.pipelines, m);
    if o in Emitted(s, Act(m)) {
      IndexEmissionsAddressed(Fed(s.pipelines, m), s.sources, IndexFor(m.payload.marker_id), o);
    }
  }

  lemma FedAddressesItsMarker(ps: seq<Pipeline>, m: IndexMessage)
    ensures var r := Fed(ps, m);
            |r| == |ps| &&
            forall j :: 0 <= j < |r| ==>
              (r[j].key == Id(m.payload.marker_id) ==> r[j].index == Some(m)) &&
              (r[j].key != Id(m.payload.marker_id) ==> r[j] == ps[j])
  {
  }

  /** An index update feeds the pipelines and fires the joins of its id. */
  lemma IndexUpdateFeeds(s: Registry, m: Message<Action>)
    requires KindOf(m) == SignalIndexAction && m.payload.IndexUpdate?
    ensures Next(s, Act(m)) == Registry(Fed(s.pipelines, m), s.sources)
    ensures Emitted(s, Act(m)) == Emissions(Fed(s.pipelines, m), s.sources, IndexFor(m.payload.marker_id))
  {
  }

  /** What the pipelines emit in reaction to an index update is addressed to
      the update's marker id. */
  lemma IndexEmissionsAddressed(ps: seq<Pipeline>, src: Sources, t: Trigger, o: Message<Mark>)
    requires t.IndexFor? && o in Emissions(ps, src, t)
    ensures o.payload.marker_id == Id(t.marker_id)
  {
    EmissionsComeFromPipelines(ps, src, t, o);
    var p :| p in ps && p.index.Some? && o in PipelineOutputs(p, src, t);
    PipelineOutputsShape(p, src, t, o);
  }

  /** The signal join: nothing is emitted before a signals value exists (it may
      predate the track), and every signal message uses the latest signals and
      the latest index of its pipeline. */
  lemma SignalJoinUsesLatestValues(s: Registry, e: Event, o: Message<Mark>)
    requires WellFormed(e) && o in Emitted(s, e) && o.tag == MARKER_SIGNAL
    ensures Next(s, e).sources.signals.Some?
    ensures exists p :: p in Next(s, e).pipelines && p.index.Some? &&
              o == ExtractSignal(p.key, p.index.value, Next(s, e).sources.signals.value)
  {
    var t := TriggerOf(e).value;
    EmissionsComeFromPipelines(Next(s, e).pipelines, Next(s, e).sources, t, o);
    var p :| p in Next(s, e).pipelines && p.index.Some? && o in PipelineOutputs(p, Next(s, e).sources, t);
    PipelineOutputsShape(p, Next(s, e).sources, t, o);
  }

  /** On new signals every pipeline with an index emits its signal once, and
      its FFT once when a sampling rate is known; nothing is emitted before a
      signals value exists. */
  lemma {:induction false} NewSignalsEmitOncePerPipeline(ps: seq<Pipeline>, src: Sources)
    ensures src.signals.None? ==> |Emissions(ps, src, SignalsArrived)| == 0
    ensures src.signals.Some? && src.rate.None? ==> |Emissions(ps, src, SignalsArrived)| == |WithIndex(ps)|
    ensures src.signals.Some? && src.rate.Some? ==> |Emissions(ps, src, SignalsArrived)| == 2 * |WithIndex(ps)|
  {
    if ps != [] {
      var init, last := ps[..|ps| - 1], ps[|ps| - 1];
      NewSignalsEmitOncePerPipeline(init, src);
      SignalsOutputCount(last, src);
      assert Emissions(ps, src, SignalsArrived) ==
             Emissions(init, src, SignalsArrived) + PipelineOutputs(last, src, SignalsArrived);
      assert |WithIndex(ps)| == |WithIndex(init)| + (if last.index.Some? then 1 else 0);
    }
  }

  /** On new signals one pipeline emits its signal, and its FFT when a rate
      is known, provided it has seen an index. */
  lemma SignalsOutputCount(p: Pipeline, src: Sources)
    ensures |PipelineOutputs(p, src, SignalsArrived)| ==
            if p.index.None? || src.signals.None? then 0 else 1 + (if src.rate.Some? then 1 else 0)
  {
  }

  /** How many joins of one pipeline an index update fires: the signal join
      once signals exist, the FFT join once signals and a rate exist, and the
      energy and resource joins once their sources exist. */
  function JoinsReady(src: Sources): nat {
    (if src.signals.Some? then 1 else 0) + (if src.signals.Some? && src.rate.Some? then 1 else 0) +
    (if src.energies.Some? then 1 else 0) + (if src.resources.Some? then 1 else 0)
  }

  /** The pipelines of marker `id` that have seen an index update. */
  function Addressed(ps: seq<Pipeline>, id: string): (r: seq<Pipeline>)
    ensures forall p :: p in r <==> p in ps && p.index.Some? && p.key == Id(id)
  {
    if ps == [] then []
    else
      var last := ps[|ps| - 1];
      Addressed(ps[..|ps| - 1], id) + (if last.index.Some? && last.key == Id(id) then [last] else [])
  }

  /** On an index update for `id`, each of the id's pipelines emits once per
      join whose source has a value, and no other pipeline emits. */
  lemma {:induction false} IndexUpdateEmitsOncePerJoin(ps: seq<Pipeline>, src: Sources, id: string)
    ensures |Emissions(ps, src, IndexFor(id))| == JoinsReady(src) * |Addressed(ps, id)|
  {
    if ps != [] {
      var init, last := ps[..|ps| - 1], ps[|ps| - 1];
      IndexUpdateEmitsOncePerJoin(init, src, id);
      IndexOutputCount(last, src, id);
      var n, j := |Addressed(init, id)|, JoinsReady(src);
      var here := last.index.Some? && last.key == Id(id);
      assert |Emissions(ps, src, IndexFor(id))| ==
             |Emissions(init, src, IndexFor(id))| + |PipelineOutputs(last, src, IndexFor(id))|;
      assert |Addressed(ps, id)| == n + (if here then 1 else 0);
      MulStep(j, n, here);
    }
  }

  lemma MulStep(j: nat, n: nat, here: bool)
    ensures j * (n + (if here then 1 else 0)) == j * n + (if here then j else 0)
  {
  }

  /** On an index update for `id`, one pipeline emits once per ready join if
      it belongs to `id` and has an index, and nothing otherwise. */
  lemma IndexOutputCount(p: Pipeline, src: Sources, id: string)
    ensures |PipelineOutputs(p, src, IndexFor(id))| ==
            if p.index.None? || p.key != Id(id) then 0 else JoinsReady(src)
  {
  }

  /** An index update makes each pipeline of its id emit once per ready join. */
  lemma IndexUpdateEmitsOnce(s: Registry, m: Message<Action>)
    requires KindOf(m) == SignalIndexAction && m.payload.IndexUpdate?
    ensures |Emitted(s, Act(m))| == JoinsReady(s.sources) * |Addressed(Fed(s.pipelines, m), m.payload.marker_id)|
  {
    IndexUpdateFeeds(s, m);
    IndexUpdateEmitsOncePerJoin(Fed(s.pipelines, m), s.sources, m.payload.marker_id);
  }

  /** The pipelines an index update addresses all hold that update as their
      latest index. */
  lemma AddressedHoldUpdate(ps: seq<Pipeline>, m: IndexMessage)
    ensures forall p :: p in Addressed(Fed(ps, m), m.payload.marker_id) ==> p.index == Some(m)
  {
    forall p | p in Addressed(Fed(ps, m), m.payload.marker_id)
      ensures p.index == Some(m)
    {
      var j :| 0 <= j < |ps| && Fed(ps, m)[j] == p;
    }
  }

  /** The pipelines that have seen an index update. */
  function WithIndex(ps: seq<Pipeline>): (r: seq<Pipeline>)
    ensures forall p :: p in r <==> p in ps && p.index.Some?
  {
    if ps == [] then []
    else
      var last := ps[|ps| - 1];
      WithIndex(ps[..|ps| - 1]) + (if last.index.Some? then [last] else [])
  }

  lemma TrackAppends(s: Registry, m: Message<Action>)
    requires KindOf(m) == TrackAction
    ensures Next(s, Act(m)) == Registry(s.pipelines + [Pipeline(m.payload, None)], s.sources)
  {
  }

  lemma KilledSnoc(ps: seq<Pipeline>, p: Pipeline, key: Action)
    ensures Killed(ps + [p], key) == Killed(ps, key) + (if p.key == key then [] else [p])
  {
    assert (ps + [p])[..|ps|] == ps;
  }

  lemma EmissionsSnoc(ps: seq<Pipeline>, p: Pipeline, src: Sources, t: Trigger)
    ensures Emissions(ps + [p], src, t) == Emissions(ps, src, t) + PipelineOutputs(p, src, t)
  {
    assert (ps + [p])[..|ps|] == ps;
  }

  /** Two markers tracked, the first untracked, then energies arrive: only the
      second marker's pipeline is left, and having no index yet it stays
      silent. (`ConstructorsReachTheirStream` shows that `Track` and `Untrack`
      build such actions.) */
  lemma UntrackedMarkerStaysSilent(trackA: Message<Action>, trackB: Message<Action>,
                                   untrackA: Message<Action>, energies: Message<seq<real>>)
    requires KindOf(trackA) == TrackAction && KindOf(trackB) == TrackAction
    requires KindOf(untrackA) == UntrackAction
    requires untrackA.payload == trackA.payload != trackB.payload
    ensures var s1 := Next(Registry([], NoSources), Act(trackA));
            var s2 := Next(s1, Act(trackB));
            var s3 := Next(s2, Act(untrackA));
            s3.pipelines == [Pipeline(trackB.payload, None)] &&
            Emitted(s3, NewEnergies(energies)) == []
  {
    var pa, pb := Pipeline(trackA.payload, None), Pipeline(trackB.payload, None);
    var s1 := Next(Registry([], NoSources), Act(trackA));
    TrackAppends(Registry([], NoSources), trackA);
    assert s1 == Registry([pa], NoSources);
    var s2 := Next(s1, Act(trackB));
    TrackAppends(s1, trackB);
    assert s2 == Registry([pa, pb], NoSources);
    UntrackKills(s2, untrackA);
    KilledFirstOfTwo(pa, pb, trackA.payload);
    var s3 := Registry([pb], NoSources);
    EnergiesReachNoFreshPipeline(s3, pb, energies);
  }

  /** An untrack leaves the pipelines `Killed` keeps and the sources. */
  lemma UntrackKills(s: Registry, m: Message<Action>)
    requires KindOf(m) == UntrackAction
    ensures Next(s, Act(m)) == Registry(Killed(s.pipelines, m.payload), s.sources)
  {
  }

  lemma KilledFirstOfTwo(pa: Pipeline, pb: Pipeline, key: Action)
    requires pa.key == key != pb.key
    ensures Killed([pa, pb], key) == [pb]
  {
    KilledSnoc([], pa, key);
    KilledSnoc([pa], pb, key);
    assert [] + [pa] == [pa] && [pa] + [pb] == [pa, pb];
  }

  /** New energies make a lone pipeline without an index emit nothing. */
  lemma EnergiesReachNoFreshPipeline(s: Registry, p: Pipeline, energies: Message<seq<real>>)
    requires s.pipelines == [p] && p.index.None?
    ensures Emitted(s, NewEnergies(energies)) == []
  {
    EmissionsSnoc([], p, s.sources.(energies := Some(energies)), EnergiesArrived);
    assert [] + [p] == [p];
  }
}
