/**
 * The Dunya corpora client: the collection name, listing a collection,
 * gathering and deduplicating the metadata of its recordings, the choice
 * of writer for an annotation and the names of downloaded files.
 *
 * The remote database is a parameter: `query[path]` is the decoded answer
 * to a request for `path`, `getRecording[mbid]` the answer to the
 * recording request for that identifier and `getConcert[mbid]` the answer
 * to the concert request; a key missing from a map is a failed request.
 */
module Dunya {
  import opened Wrappers
  import opened Json
  import opened Strings
  import PyDict

  /** The answer to a request, or `None` when the request fails. */
  function Fetch<K>(answers: map<K, Value>, key: K): (r: Option<Value>)
    ensures r.Some? <==> key in answers
    ensures r.Some? ==> r.value == answers[key]
  {
    if key in answers then Some(answers[key]) else None
  }

  // ---------------------------------------------------------------------
  // Collection name

  /** The collection a corpora instance reads: `dunya-<tradition>`, with `-cc` for the Creative Commons version. */
  function CollectionName(tradition: string, cc: bool): (name: string)
    ensures |name| == |"dunya-"| + |tradition| + (if cc then |"-cc"| else 0)
    ensures name[..|"dunya-"| + |tradition|] == "dunya-" + tradition
    ensures cc ==> name[|"dunya-"| + |tradition|..] == "-cc"
  {
    if cc then "dunya-" + tradition + "-cc" else "dunya-" + tradition
  }

  /** For a fixed choice of version, different traditions never share a collection. */
  lemma CollectionNameInjective(t1: string, t2: string, cc: bool)
    requires CollectionName(t1, cc) == CollectionName(t2, cc)
    ensures t1 == t2
  {
    var n := CollectionName(t1, cc);
    assert t1 == n[|"dunya-"|..|"dunya-"| + |t1|];
  }

  /** The name alone does not tell the version: tradition `t + "-cc"` names the same collection as the Creative Commons version of `t`. */
  lemma CollectionNameAmbiguous(t: string)
    ensures CollectionName(t + "-cc", false) == CollectionName(t, true)
  {
    assert "dunya-" + (t + "-cc") == "dunya-" + t + "-cc";
  }

  // ---------------------------------------------------------------------
  // Listing a collection

  /** Every key of `after` except `mbid` and `external_identifier` is a key of `before` with the same value, and conversely. */
  ghost predicate SameOtherFields(before: map<string, Value>, after: map<string, Value>)
  {
    && (forall k :: k in before && k != "mbid" && k != "external_identifier" ==> k in after && after[k] == before[k])
    && (forall k :: k in after && k != "mbid" && k != "external_identifier" ==> k in before)
  }

  /** `doc["mbid"] = doc.pop("external_identifier")` on one listed document. */
  function RenameIdentifier(doc: Value): (r: Option<Value>)
    ensures r.Some? <==> doc.Object? && "external_identifier" in doc.fields
    ensures r.Some? ==> && r.value.Object?
                        && "mbid" in r.value.fields
                        && r.value.fields["mbid"] == doc.fields["external_identifier"]
                        && "external_identifier" !in r.value.fields
                        && SameOtherFields(doc.fields, r.value.fields)
  {
    if doc.Object? && "external_identifier" in doc.fields then
      Some(Object((doc.fields - {"external_identifier"})["mbid" := doc.fields["external_identifier"]]))
    else None
  }

  /** The documents of a listing with their identifiers renamed, in order; any document that cannot be renamed fails the whole listing. */
  function RenameAll(docs: seq<Value>): (r: Option<seq<Value>>)
    ensures r.Some? <==> forall i :: 0 <= i < |docs| ==> RenameIdentifier(docs[i]).Some?
    ensures r.Some? ==> |r.value| == |docs| && forall i :: 0 <= i < |docs| ==> Some(r.value[i]) == RenameIdentifier(docs[i])
  {
    if forall i :: 0 <= i < |docs| ==> RenameIdentifier(docs[i]).Some? then
      Some(seq(|docs|, i requires 0 <= i < |docs| && RenameIdentifier(docs[i]).Some? => RenameIdentifier(docs[i]).value))
    else None
  }

  /** The `documents` list of the answer to the collection request. */
  function ListedDocuments(response: Option<Value>): Option<seq<Value>>
  {
    match response
    case None => None
    case Some(answer) =>
      match Get(answer, "documents")
      case None => None
      case Some(docs) => Items(docs)
  }

  /** What `get_collection` returns for an answer to the collection request. */
  function Collection(response: Option<Value>): Option<seq<Value>>
  {
    match ListedDocuments(response)
    case None => None
    case Some(docs) => RenameAll(docs)
  }

  // ---------------------------------------------------------------------
  // Gathering metadata

  /** The seven lists `_get_metadata` accumulates (and, deduplicated, returns). */
  datatype Lists = Lists(
    recordings: seq<Value>,
    artists: seq<Value>,
    concerts: seq<Value>,
    works: seq<Value>,
    ragas: seq<Value>,
    talas: seq<Value>,
    instruments: seq<Value>)

  const NoLists := Lists([], [], [], [], [], [], [])

  /** `self.get_recording(rec["mbid"])[name]`, as the elements the `for` loop over it visits. */
  function RecordingField(getRecording: map<Value, Value>, rec: Value, name: string): Option<seq<Value>>
  {
    match Get(rec, "mbid")
    case None => None
    case Some(id) =>
      match Fetch(getRecording, id)
      case None => None
      case Some(detail) =>
        match Get(detail, name)
        case None => None
        case Some(v) => Items(v)
  }

  /** One pass of the artist loop body; the flag is false when a read raised. */
  function AddArtist(acc: Lists, a: Value): (Lists, bool)
  {
    match Get(a, "lead")
    case None => (acc, false)
    case Some(lead) =>
      var (acc1, ok) :=
        if Truthy(lead) then
          match Get(a, "artist")
          case None => (acc, false)
          case Some(p) => (acc.(artists := acc.artists + [p]), true)
        else (acc, true);
      if !ok then (acc1, false)
      else
        match Get(a, "instrument")
        case None => (acc1, false)
        case Some(ins) => (acc1.(instruments := acc1.instruments + [ins]), true)
  }

  /** The artist loop: stops at the first entry whose reads raise, keeping what earlier passes appended. */
  function AddArtists(acc: Lists, xs: seq<Value>): (Lists, bool)
    decreases |xs|
  {
    if xs == [] then (acc, true)
    else
      var (acc1, ok) := AddArtist(acc, xs[0]);
      if !ok then (acc1, false) else AddArtists(acc1, xs[1..])
  }

  /** The whole `try` body for one recording: the artist, concert, work, raaga and taala reads in order, then the recording id. */
  function Step(acc: Lists, rec: Value, getRecording: map<Value, Value>): Lists
  {
    match RecordingField(getRecording, rec, "artists")
    case None => acc
    case Some(xs) =>
      var (a1, ok) := AddArtists(acc, xs);
      if !ok then a1
      else
        match RecordingField(getRecording, rec, "concert")
        case None => a1
        case Some(cs) =>
          var a2 := a1.(concerts := a1.concerts + cs);
          match RecordingField(getRecording, rec, "work")
          case None => a2
          case Some(ws) =>
            var a3 := a2.(works := a2.works + ws);
            match RecordingField(getRecording, rec, "raaga")
            case None => a3
            case Some(rs) =>
              var a4 := a3.(ragas := a3.ragas + rs);
              match RecordingField(getRecording, rec, "taala")
              case None => a4
              case Some(ts) =>
                var a5 := a4.(talas := a4.talas + ts);
                a5.(recordings := a5.recordings + [Get(rec, "mbid").value])
  }

  /** The accumulators after the loop has visited every recording of `coll`. */
  function Accumulate(coll: seq<Value>, getRecording: map<Value, Value>): Lists
  {
    if coll == [] then NoLists
    else Step(Accumulate(coll[..|coll| - 1], getRecording), coll[|coll| - 1], getRecording)
  }

  lemma AccumulateNext(coll: seq<Value>, i: nat, getRecording: map<Value, Value>)
    requires i < |coll|
    ensures Accumulate(coll[..i + 1], getRecording) == Step(Accumulate(coll[..i], getRecording), coll[i], getRecording)
  {
    assert coll[..i + 1][..i] == coll[..i];
  }

  // Reference definitions for what one recording contributes.

  /** Every read of one artist entry succeeds. */
  predicate ArtistReadable(a: Value)
  {
    && Get(a, "lead").Some?
    && (Truthy(Get(a, "lead").value) ==> Get(a, "artist").Some?)
    && Get(a, "instrument").Some?
  }

  predicate AllArtistsReadable(xs: seq<Value>)
  {
    forall i :: 0 <= i < |xs| ==> ArtistReadable(xs[i])
  }

  /** The `artist` of every entry marked as lead, in order. */
  function LeadArtists(xs: seq<Value>): seq<Value>
    requires AllArtistsReadable(xs)
  {
    if xs == [] then []
    else (if Truthy(Get(xs[0], "lead").value) then [Get(xs[0], "artist").value] else []) + LeadArtists(xs[1..])
  }

  /** The `instrument` of every entry, in order. */
  function Instruments(xs: seq<Value>): (r: seq<Value>)
    requires AllArtistsReadable(xs)
  {
    seq(|xs|, i requires 0 <= i < |xs| && AllArtistsReadable(xs) => Get(xs[i], "instrument").value)
  }

  /** All five reads of a recording succeed, so it is recorded as processed. */
  predicate Processed(rec: Value, getRecording: map<Value, Value>)
  {
    && RecordingField(getRecording, rec, "artists").Some?
    && AllArtistsReadable(RecordingField(getRecording, rec, "artists").value)
    && RecordingField(getRecording, rec, "concert").Some?
    && RecordingField(getRecording, rec, "work").Some?
    && RecordingField(getRecording, rec, "raaga").Some?
    && RecordingField(getRecording, rec, "taala").Some?
  }

  /** The identifiers of the processed recordings of `coll`, in collection order. */
  function ProcessedIds(coll: seq<Value>, getRecording: map<Value, Value>): seq<Value>
  {
    if coll == [] then []
    else
      var last := coll[|coll| - 1];
      ProcessedIds(coll[..|coll| - 1], getRecording)
        + (if Processed(last, getRecording) then [Get(last, "mbid").value] else [])
  }

  /** One list is a prefix of the other and the rest keeps every other list. */
  ghost predicate OnlyArtistsGrow(acc: Lists, r: Lists)
  {
    && acc.artists <= r.artists
    && acc.instruments <= r.instruments
    && r.(artists := acc.artists, instruments := acc.instruments) == acc
  }

  /** One artist entry: its reads all succeed exactly when it is readable, and then it adds its instrument and, when it is a lead, its artist. */
  lemma AddArtistSpec(acc: Lists, a: Value)
    ensures AddArtist(acc, a).1 <==> ArtistReadable(a)
    ensures ArtistReadable(a) ==>
      AddArtist(acc, a).0 == acc.(artists := acc.artists + LeadArtists([a]), instruments := acc.instruments + Instruments([a]))
    ensures !ArtistReadable(a) ==> AddArtist(acc, a).0 == acc.(artists := acc.artists + PartialLead(a))
    ensures OnlyArtistsGrow(acc, AddArtist(acc, a).0)
  {
  }

  /** What an unreadable entry has appended when its read raises: its artist, if `lead` and `artist` were read and `lead` is truthy. */
  function PartialLead(a: Value): seq<Value>
  {
    if Get(a, "lead").Some? && Truthy(Get(a, "lead").value) && Get(a, "artist").Some? then [Get(a, "artist").value] else []
  }

  /** The artist loop stops at the first unreadable entry `k`: the entries before it have added their artists and instruments, and entry `k` what it appended before raising. */
  lemma {:induction false} AddArtistsStopsAt(acc: Lists, xs: seq<Value>, k: nat)
    requires k < |xs| && AllArtistsReadable(xs[..k]) && !ArtistReadable(xs[k])
    ensures AddArtists(acc, xs).0 ==
      AddArtist(acc.(artists := acc.artists + LeadArtists(xs[..k]), instruments := acc.instruments + Instruments(xs[..k])), xs[k]).0
    decreases k
  {
    if k == 0 {
      AddArtistSpec(acc, xs[0]);
      assert acc.(artists := acc.artists + LeadArtists(xs[..0]), instruments := acc.instruments + Instruments(xs[..0])) == acc;
    } else {
      assert xs[..k][0] == xs[0];
      AddArtistSpec(acc, xs[0]);
      var acc1, rest := AddArtist(acc, xs[0]).0, xs[1..];
      assert AddArtists(acc, xs) == AddArtists(acc1, rest);
      assert rest[..k - 1] == xs[..k][1..] && rest[k - 1] == xs[k];
      AddArtistsStopsAt(acc1, rest, k - 1);
      LeadsSplit(xs[..k]);
      AppendTwice(acc, LeadArtists([xs[0]]), Instruments([xs[0]]), LeadArtists(rest[..k - 1]), Instruments(rest[..k - 1]));
    }
  }

  /** Two rounds of appending to the artist and instrument lists are one round appending both parts. */
  lemma AppendTwice(acc: Lists, l0: seq<Value>, i0: seq<Value>, l1: seq<Value>, i1: seq<Value>)
    ensures acc.(artists := acc.artists + l0, instruments := acc.instruments + i0).(artists := acc.artists + l0 + l1, instruments := acc.instruments + i0 + i1)
      == acc.(artists := acc.artists + (l0 + l1), instruments := acc.instruments + (i0 + i1))
  {
  }

  /** The artist loop completes exactly when every entry is readable. */
  lemma {:induction false} AddArtistsCompletes(acc: Lists, xs: seq<Value>)
    ensures AddArtists(acc, xs).1 <==> AllArtistsReadable(xs)
    decreases |xs|
  {
    if xs != [] {
      var step := AddArtist(acc, xs[0]);
      AddArtistSpec(acc, xs[0]);
      if step.1 {
        var rest := xs[1..];
        AddArtistsCompletes(step.0, rest);
        assert AllArtistsReadable(xs) <==> ArtistReadable(xs[0]) && AllArtistsReadable(rest) by {
          assert forall i :: 1 <= i < |xs| ==> xs[i] == rest[i - 1];
        }
      }
    }
  }

  /** When every entry is readable, every entry adds its instrument and each lead entry its artist, in order. */
  lemma {:induction false} AddArtistsResult(acc: Lists, xs: seq<Value>)
    requires AllArtistsReadable(xs)
    ensures AddArtists(acc, xs).0 == acc.(artists := acc.artists + LeadArtists(xs), instruments := acc.instruments + Instruments(xs))
    decreases |xs|
  {
    if xs != [] {
      AddArtistSpec(acc, xs[0]);
      LeadsSplit(xs);
      var acc1, rest := AddArtist(acc, xs[0]).0, xs[1..];
      assert AddArtists(acc, xs) == AddArtists(acc1, rest);
      AddArtistsResult(acc1, rest);
      AppendTwice(acc, LeadArtists([xs[0]]), Instruments([xs[0]]), LeadArtists(rest), Instruments(rest));
    }
  }

  /** Whatever happens, the artist loop only appends to the artist and instrument lists. */
  lemma {:induction false} AddArtistsGrow(acc: Lists, xs: seq<Value>)
    ensures OnlyArtistsGrow(acc, AddArtists(acc, xs).0)
    decreases |xs|
  {
    if xs != [] {
      var step := AddArtist(acc, xs[0]);
      AddArtistSpec(acc, xs[0]);
      if step.1 {
        AddArtistsGrow(step.0, xs[1..]);
        GrowTransitive(acc, step.0, AddArtists(step.0, xs[1..]).0);
      }
    }
  }

  lemma GrowTransitive(a: Lists, b: Lists, c: Lists)
    requires OnlyArtistsGrow(a, b) && OnlyArtistsGrow(b, c)
    ensures OnlyArtistsGrow(a, c)
  {
  }

  /** The lead artists and the instruments of a list are those of its head followed by those of its tail. */
  lemma LeadsSplit(xs: seq<Value>)
    requires xs != [] && AllArtistsReadable(xs)
    ensures AllArtistsReadable([xs[0]]) && AllArtistsReadable(xs[1..])
    ensures LeadArtists(xs) == LeadArtists([xs[0]]) + LeadArtists(xs[1..])
    ensures Instruments(xs) == Instruments([xs[0]]) + Instruments(xs[1..])
  {
    var h := [xs[0]];
    assert h[1..] == [];
    assert AllArtistsReadable(xs[1..]) by {
      forall i | 0 <= i < |xs| - 1 ensures ArtistReadable(xs[1..][i]) {
        assert xs[1..][i] == xs[i + 1];
      }
    }
    InstrumentsSplit(xs);
  }

  /** The instruments of a readable list are the first entry's followed by the rest's. */
  lemma InstrumentsSplit(xs: seq<Value>)
    requires xs != [] && AllArtistsReadable(xs) && AllArtistsReadable([xs[0]]) && AllArtistsReadable(xs[1..])
    ensures Instruments(xs) == Instruments([xs[0]]) + Instruments(xs[1..])
  {
    var r := Instruments([xs[0]]) + Instruments(xs[1..]);
    forall i | 0 <= i < |xs| ensures Instruments(xs)[i] == r[i] {
      if i > 0 {
        assert xs[1..][i - 1] == xs[i];
      }
    }
  }

  /** A recording's identifier is appended exactly when all five reads succeed; the step never removes anything from any list. */
  lemma StepSpec(acc: Lists, rec: Value, getRecording: map<Value, Value>)
    ensures Step(acc, rec, getRecording).recordings ==
      acc.recordings + (if Processed(rec, getRecording) then [Get(rec, "mbid").value] else [])
    ensures var r := Step(acc, rec, getRecording);
      && acc.artists <= r.artists && acc.concerts <= r.concerts && acc.works <= r.works
      && acc.ragas <= r.ragas && acc.talas <= r.talas && acc.instruments <= r.instruments
  {
    var xs := RecordingField(getRecording, rec, "artists");
    if xs.Some? {
      AddArtistsCompletes(acc, xs.value);
      AddArtistsGrow(acc, xs.value);
    }
  }

  /** A recording whose artist read fails contributes nothing. */
  lemma StepArtistsUnread(acc: Lists, rec: Value, getRecording: map<Value, Value>)
    requires RecordingField(getRecording, rec, "artists").None?
    ensures Step(acc, rec, getRecording) == acc
  {
  }

  /** No rollback inside the artist loop: when entry `k` is the first unreadable one, the entries before it keep their artists and instruments, entry `k` keeps the artist it appended before raising, and nothing else changes. */
  lemma StepArtistFailure(acc: Lists, rec: Value, getRecording: map<Value, Value>, k: nat)
    requires RecordingField(getRecording, rec, "artists").Some?
    requires k < |RecordingField(getRecording, rec, "artists").value|
    requires AllArtistsReadable(RecordingField(getRecording, rec, "artists").value[..k])
    requires !ArtistReadable(RecordingField(getRecording, rec, "artists").value[k])
    ensures var xs := RecordingField(getRecording, rec, "artists").value;
      var r := Step(acc, rec, getRecording);
      && r.artists == acc.artists + LeadArtists(xs[..k]) + PartialLead(xs[k])
      && r.instruments == acc.instruments + Instruments(xs[..k])
      && r.(artists := acc.artists, instruments := acc.instruments) == acc
  {
    var xs := RecordingField(getRecording, rec, "artists").value;
    AddArtistsCompletes(acc, xs);
    AddArtistsStopsAt(acc, xs, k);
    var pre := acc.(artists := acc.artists + LeadArtists(xs[..k]), instruments := acc.instruments + Instruments(xs[..k]));
    AddArtistSpec(pre, xs[k]);
  }

  /** No rollback after the artist loop: each list gets its recording's contribution exactly when every read up to and including its own succeeds, whatever happens to the later reads; the id is appended only when all of them succeed. */
  lemma StepLists(acc: Lists, rec: Value, getRecording: map<Value, Value>)
    requires RecordingField(getRecording, rec, "artists").Some?
    requires AllArtistsReadable(RecordingField(getRecording, rec, "artists").value)
    ensures var xs := RecordingField(getRecording, rec, "artists").value;
      var c := RecordingField(getRecording, rec, "concert");
      var w := RecordingField(getRecording, rec, "work");
      var g := RecordingField(getRecording, rec, "raaga");
      var t := RecordingField(getRecording, rec, "taala");
      var r := Step(acc, rec, getRecording);
      && r.artists == acc.artists + LeadArtists(xs)
      && r.instruments == acc.instruments + Instruments(xs)
      && r.concerts == acc.concerts + (if c.Some? then c.value else [])
      && r.works == acc.works + (if c.Some? && w.Some? then w.value else [])
      && r.ragas == acc.ragas + (if c.Some? && w.Some? && g.Some? then g.value else [])
      && r.talas == acc.talas + (if c.Some? && w.Some? && g.Some? && t.Some? then t.value else [])
      && r.recordings == acc.recordings + (if c.Some? && w.Some? && g.Some? && t.Some? then [Get(rec, "mbid").value] else [])
  {
    var xs := RecordingField(getRecording, rec, "artists").value;
    AddArtistsCompletes(acc, xs);
    AddArtistsResult(acc, xs);
  }

  /** No rollback: when a recording's artist entries are all read but a later read fails, the recording is skipped yet its artists and instruments stay. */
  lemma NoRollback(acc: Lists, rec: Value, getRecording: map<Value, Value>)
    requires RecordingField(getRecording, rec, "artists").Some?
    requires AllArtistsReadable(RecordingField(getRecording, rec, "artists").value)
    requires !Processed(rec, getRecording)
    ensures var xs := RecordingField(getRecording, rec, "artists").value;
      && Step(acc, rec, getRecording).recordings == acc.recordings
      && Step(acc, rec, getRecording).artists == acc.artists + LeadArtists(xs)
      && Step(acc, rec, getRecording).instruments == acc.instruments + Instruments(xs)
  {
    var xs := RecordingField(getRecording, rec, "artists").value;
    AddArtistsCompletes(acc, xs);
    AddArtistsResult(acc, xs);
  }

  /** The recording list holds the identifiers of exactly the processed recordings, in collection order. */
  lemma {:induction false} RecordingListIsProcessed(coll: seq<Value>, getRecording: map<Value, Value>)
    ensures Accumulate(coll, getRecording).recordings == ProcessedIds(coll, getRecording)
  {
    if coll != [] {
      var n := |coll| - 1;
      RecordingListIsProcessed(coll[..n], getRecording);
      StepSpec(Accumulate(coll[..n], getRecording), coll[n], getRecording);
    }
  }

  /** An identifier is in the recording list iff some recording carrying it was processed. */
  lemma {:induction false} ProcessedIdsMembers(coll: seq<Value>, getRecording: map<Value, Value>, id: Value)
    ensures id in ProcessedIds(coll, getRecording) <==>
      exists i :: 0 <= i < |coll| && Processed(coll[i], getRecording) && Get(coll[i], "mbid") == Some(id)
  {
    if coll != [] {
      var n := |coll| - 1;
      ProcessedIdsMembers(coll[..n], getRecording, id);
      assert forall i :: 0 <= i < n ==> coll[..n][i] == coll[i];
      if Processed(coll[n], getRecording) {
        assert Get(coll[n], "mbid").Some?;
      }
    }
  }

  /** With no failing recording, the recording list is every identifier of the collection, in order. */
  lemma {:induction false} NoFailureKeepsAll(coll: seq<Value>, getRecording: map<Value, Value>)
    requires forall i :: 0 <= i < |coll| ==> Processed(coll[i], getRecording)
    ensures |ProcessedIds(coll, getRecording)| == |coll|
    ensures forall i :: 0 <= i < |coll| ==> Some(ProcessedIds(coll, getRecording)[i]) == Get(coll[i], "mbid")
  {
    if coll != [] {
      var n := |coll| - 1;
      assert forall i :: 0 <= i < n ==> coll[..n][i] == coll[i];
      NoFailureKeepsAll(coll[..n], getRecording);
      assert Get(coll[n], "mbid").Some?;
    }
  }

  // ---------------------------------------------------------------------
  // Deduplication: `list({r[field]: r for r in records}.values())`

  /** The dict key Python uses for a value: lists and dicts are unhashable, and `True`/`False` are the same keys as `1`/`0`. */
  function DictKey(v: Value): Option<Value>
  {
    match v
    case List(_) => None
    case Object(_) => None
    case Bool(b) => Some(Int(if b then 1 else 0))
    case _ => Some(v)
  }

  /** `r[field]` as a dict key. */
  function RecordKey(r: Value, field: string): Option<Value>
  {
    match Get(r, field)
    case None => None
    case Some(k) => DictKey(k)
  }

  predicate AllKeyed(records: seq<Value>, field: string)
  {
    forall i :: 0 <= i < |records| ==> RecordKey(records[i], field).Some?
  }

  /** The keys of the records, in order. */
  function KeySeq(records: seq<Value>, field: string): (ks: seq<Value>)
    requires AllKeyed(records, field)
    ensures |ks| == |records|
    ensures forall i :: 0 <= i < |records| ==> Some(ks[i]) == RecordKey(records[i], field)
  {
    seq(|records|, i requires 0 <= i < |records| && AllKeyed(records, field) => RecordKey(records[i], field).value)
  }

  /** The key/record pairs the comprehension assigns, in order. */
  function KeyedPairs(records: seq<Value>, field: string): (ps: seq<(Value, Value)>)
    requires AllKeyed(records, field)
    ensures |ps| == |records|
    ensures forall i :: 0 <= i < |records| ==> ps[i] == (RecordKey(records[i], field).value, records[i])
  {
    seq(|records|, i requires 0 <= i < |records| && AllKeyed(records, field) => (RecordKey(records[i], field).value, records[i]))
  }

  lemma KeysOfKeyedPairs(records: seq<Value>, field: string)
    requires AllKeyed(records, field)
    ensures PyDict.Keys(KeyedPairs(records, field)) == KeySeq(records, field)
  {
  }

  /** `{r[field]: r for r in records}`: one assignment per record, in order; a record without a usable key raises. */
  function Comprehension(records: seq<Value>, field: string): (r: Option<PyDict.Dict<Value, Value>>)
    ensures r.Some? ==> PyDict.Valid(r.value)
  {
    if records == [] then Some(PyDict.Empty())
    else
      var n := |records| - 1;
      var prev, k := Comprehension(records[..n], field), RecordKey(records[n], field);
      if prev.None? || k.None? then None else Some(PyDict.Put(prev.value, k.value, records[n]))
  }

  /** The comprehension raises exactly when some record has no usable key. */
  lemma {:induction false} ComprehensionSucceeds(records: seq<Value>, field: string)
    ensures Comprehension(records, field).Some? <==> AllKeyed(records, field)
  {
    if records != [] {
      var n := |records| - 1;
      var prefix := records[..n];
      ComprehensionSucceeds(prefix, field);
      ComprehensionStep(records, field);
      AllKeyedSplit(records, field);
    }
  }

  lemma ComprehensionStep(records: seq<Value>, field: string)
    requires records != []
    ensures Comprehension(records, field).Some? <==>
      Comprehension(records[..|records| - 1], field).Some? && RecordKey(records[|records| - 1], field).Some?
  {
  }

  lemma AllKeyedSplit(records: seq<Value>, field: string)
    requires records != []
    ensures AllKeyed(records, field) <==>
      AllKeyed(records[..|records| - 1], field) && RecordKey(records[|records| - 1], field).Some?
  {
    var n := |records| - 1;
    if AllKeyed(records[..n], field) && RecordKey(records[n], field).Some? {
      forall i | 0 <= i < |records| ensures RecordKey(records[i], field).Some? {
        if i < n {
          assert records[i] == records[..n][i];
        }
      }
    }
    if AllKeyed(records, field) {
      PrefixKeyed(records, field, n);
    }
  }

  lemma PrefixKeyed(records: seq<Value>, field: string, n: nat)
    requires n <= |records| && AllKeyed(records, field)
    ensures AllKeyed(records[..n], field)
  {
    assert forall i :: 0 <= i < n ==> records[..n][i] == records[i];
  }

  /** When every record has a usable key, the comprehension is the dict built from the key/record pairs. */
  lemma {:induction false} ComprehensionIsFromPairs(records: seq<Value>, field: string)
    requires AllKeyed(records, field)
    ensures Comprehension(records, field) == Some(PyDict.FromPairs(KeyedPairs(records, field)))
  {
    if records != [] {
      var n := |records| - 1;
      var prefix := records[..n];
      PrefixKeyed(records, field, n);
      ComprehensionIsFromPairs(prefix, field);
      var ps := KeyedPairs(records, field);
      assert ps[..n] == KeyedPairs(prefix, field);
      assert PyDict.FromPairs(ps) == PyDict.Put(PyDict.FromPairs(ps[..n]), ps[n].0, ps[n].1);
    }
  }

  /** `list({r[field]: r for r in records}.values())`. */
  function Deduplicate(records: seq<Value>, field: string): Option<seq<Value>>
  {
    match Comprehension(records, field)
    case None => None
    case Some(d) => Some(PyDict.Values(d))
  }

  /** The deduplicated list in terms of the pairs the comprehension assigns. */
  lemma DeduplicateFromPairs(records: seq<Value>, field: string)
    ensures Deduplicate(records, field).Some? <==> AllKeyed(records, field)
    ensures AllKeyed(records, field) ==>
      Deduplicate(records, field) == Some(PyDict.Values(PyDict.FromPairs(KeyedPairs(records, field))))
  {
    ComprehensionSucceeds(records, field);
    if AllKeyed(records, field) {
      ComprehensionIsFromPairs(records, field);
    }
  }

  /** The keys of the output are the dict's key order. */
  lemma DeduplicateKeySeq(records: seq<Value>, field: string)
    requires Deduplicate(records, field).Some?
    ensures AllKeyed(records, field)
    ensures AllKeyed(Deduplicate(records, field).value, field)
    ensures KeySeq(Deduplicate(records, field).value, field) == PyDict.FromPairs(KeyedPairs(records, field)).order
  {
    DeduplicateFromPairs(records, field);
    var ps := KeyedPairs(records, field);
    var d := PyDict.FromPairs(ps);
    var out := Deduplicate(records, field).value;
    forall i | 0 <= i < |out| ensures RecordKey(out[i], field) == Some(d.order[i]) {
      var j := PyDict.LastIndexOf(ps, d.order[i]);
      assert ps[j] == (KeySeq(records, field)[j], records[j]);
    }
  }

  /** The output fails exactly when some record has no usable key; otherwise no key occurs twice in it and its keys are exactly the keys of the input. */
  lemma DeduplicateKeys(records: seq<Value>, field: string)
    ensures Deduplicate(records, field).Some? <==> AllKeyed(records, field)
    ensures Deduplicate(records, field).Some? ==>
      && AllKeyed(Deduplicate(records, field).value, field)
      && PyDict.Distinct(KeySeq(Deduplicate(records, field).value, field))
      && forall k :: k in KeySeq(Deduplicate(records, field).value, field) <==> k in KeySeq(records, field)
  {
    DeduplicateFromPairs(records, field);
    if AllKeyed(records, field) {
      DeduplicateKeySeq(records, field);
    }
  }

  /** The input record an output record comes from: the last one with its key. */
  lemma DeduplicateSource(records: seq<Value>, field: string, i: nat) returns (j: nat)
    requires Deduplicate(records, field).Some? && i < |Deduplicate(records, field).value|
    ensures j < |records| && Deduplicate(records, field).value[i] == records[j]
    ensures forall j' :: j < j' < |records| ==> RecordKey(records[j'], field) != RecordKey(records[j], field)
  {
    DeduplicateFromPairs(records, field);
    var ps := KeyedPairs(records, field);
    var d := PyDict.FromPairs(ps);
    j := PyDict.LastIndexOf(ps, d.order[i]);
    forall j' | j < j' < |records| ensures RecordKey(records[j'], field) != RecordKey(records[j], field) {
      assert ps[j'].0 != ps[j].0;
    }
  }

  /** Last value wins: every output record is the last input record with its key. */
  lemma DeduplicateLastWins(records: seq<Value>, field: string)
    requires Deduplicate(records, field).Some?
    ensures var out := Deduplicate(records, field).value;
      forall i :: 0 <= i < |out| ==> exists j ::
        && 0 <= j < |records| && out[i] == records[j]
        && forall j' :: j < j' < |records| ==> RecordKey(records[j'], field) != RecordKey(records[j], field)
  {
    var out := Deduplicate(records, field).value;
    forall i | 0 <= i < |out|
      ensures exists j ::
        && 0 <= j < |records| && out[i] == records[j]
        && forall j' :: j < j' < |records| ==> RecordKey(records[j'], field) != RecordKey(records[j], field)
    {
      var j := DeduplicateSource(records, field, i);
    }
  }

  /** The output keeps the order in which keys first occur in the input. */
  lemma DeduplicateOrder(records: seq<Value>, field: string)
    requires Deduplicate(records, field).Some?
    ensures AllKeyed(records, field)
    ensures AllKeyed(Deduplicate(records, field).value, field)
    ensures PyDict.InFirstOccurrenceOrder(KeySeq(records, field), KeySeq(Deduplicate(records, field).value, field))
  {
    DeduplicateKeySeq(records, field);
    KeysOfKeyedPairs(records, field);
    PyDict.FirstOccurrenceOrder(KeyedPairs(records, field));
  }

  /** Deduplicating an already deduplicated list returns it unchanged. */
  lemma DeduplicateIdempotent(records: seq<Value>, field: string)
    requires Deduplicate(records, field).Some?
    ensures Deduplicate(Deduplicate(records, field).value, field) == Deduplicate(records, field)
  {
    var out := Deduplicate(records, field).value;
    DeduplicateKeys(records, field);
    DistinctRecordsKept(out, field);
  }

  /** Records whose keys are already distinct pass through unchanged. */
  lemma DistinctRecordsKept(records: seq<Value>, field: string)
    requires AllKeyed(records, field)
    requires PyDict.Distinct(KeySeq(records, field))
    ensures Deduplicate(records, field) == Some(records)
  {
    DeduplicateFromPairs(records, field);
    DistinctPairsValues(records, field);
  }

  lemma DistinctPairsValues(records: seq<Value>, field: string)
    requires AllKeyed(records, field)
    requires PyDict.Distinct(KeySeq(records, field))
    ensures PyDict.Values(PyDict.FromPairs(KeyedPairs(records, field))) == records
  {
    KeysOfKeyedPairs(records, field);
    var ps := KeyedPairs(records, field);
    PyDict.DistinctKeysValues(ps);
    var out := PyDict.Values(PyDict.FromPairs(ps));
    forall i | 0 <= i < |records| ensures out[i] == records[i] {
      assert out[i] == ps[i].1;
    }
    assert out == records;
  }

  /** The six deduplicated lists and the recording list, as `_get_metadata` returns them; a record without its key fails the whole call. */
  function Deduplicated(acc: Lists): Option<Lists>
  {
    match (Deduplicate(acc.artists, "mbid"), Deduplicate(acc.concerts, "mbid"), Deduplicate(acc.works, "mbid"),
           Deduplicate(acc.ragas, "uuid"), Deduplicate(acc.talas, "uuid"), Deduplicate(acc.instruments, "mbid"))
    case (Some(a), Some(c), Some(w), Some(r), Some(t), Some(i)) => Some(Lists(acc.recordings, a, c, w, r, t, i))
    case _ => None
  }

  /** What `_get_metadata` returns for a listing of the collection; a failed listing raises. */
  function Gathered(coll: Option<seq<Value>>, getRecording: map<Value, Value>): Option<Lists>
  {
    match coll
    case None => None
    case Some(recs) => Deduplicated(Accumulate(recs, getRecording))
  }

  // ---------------------------------------------------------------------
  // The corpora object

  class Corpora {
    const token: string
    const tradition: string
    const collection: string
    var recordingList: seq<Value>
    var artistList: seq<Value>
    var concertList: seq<Value>
    var workList: seq<Value>
    var ragaList: seq<Value>
    var talaList: seq<Value>
    var instrumentList: seq<Value>

    /** The seven metadata fields. */
    function Metadata(): Lists
      reads this
    {
      Lists(recordingList, artistList, concertList, workList, ragaList, talaList, instrumentList)
    }

    constructor (tradition: string, cc: bool, token: string)
      ensures this.token == token && this.tradition == tradition
      ensures collection == CollectionName(tradition, cc)
      ensures Metadata() == NoLists
    {
      this.token := token;
      this.tradition := tradition;
      this.collection := CollectionName(tradition, cc);
      recordingList, artistList, concertList, workList := [], [], [], [];
      ragaList, talaList, instrumentList := [], [], [];
    }

    /** `get_collection`: the listed documents, each with `external_identifier` renamed to `mbid`, in order. */
    method GetCollection(query: map<string, Value>) returns (docs: Option<seq<Value>>)
      ensures docs == Collection(Fetch(query, "document/" + collection))
    {
      var listed := ListedDocuments(Fetch(query, "document/" + collection));
      if listed.None? {
        return None;
      }
      var found := listed.value;
      var renamed: seq<Value> := [];
      for i := 0 to |found|
        invariant |renamed| == i
        invariant forall j :: 0 <= j < i ==> RenameIdentifier(found[j]) == Some(renamed[j])
      {
        var doc := RenameIdentifier(found[i]);
        if doc.None? {
          assert RenameAll(found).None?;
          return None;
        }
        renamed := renamed + [doc.value];
      }
      assert RenameAll(found).Some?;
      assert RenameAll(found).value == renamed;
      docs := Some(renamed);
    }

    /** Appends each of `items` to `list`, one at a time. */
    static method AppendEach(list: seq<Value>, items: seq<Value>) returns (r: seq<Value>)
      ensures r == list + items
    {
      r := list;
      for i := 0 to |items|
        invariant r == list + items[..i]
      {
        r := r + [items[i]];
      }
      assert items[..|items|] == items;
    }

    /** The `try` body of `_get_metadata` for one recording. */
    static method ParseRecording(acc0: Lists, rec: Value, getRecording: map<Value, Value>) returns (acc: Lists)
      ensures acc == Step(acc0, rec, getRecording)
    {
      acc := acc0;
      var artists := RecordingField(getRecording, rec, "artists");
      if artists.None? {
        return;
      }
      var xs := artists.value;
      var j := 0;
      while j < |xs|
        invariant 0 <= j <= |xs|
        invariant AddArtists(acc0, xs) == AddArtists(acc, xs[j..])
      {
        assert xs[j..][0] == xs[j] && xs[j..][1..] == xs[j + 1..];
        var lead := Get(xs[j], "lead");
        if lead.None? {
          return;
        }
        if Truthy(lead.value) {
          var artist := Get(xs[j], "artist");
          if artist.None? {
            return;
          }
          acc := acc.(artists := acc.artists + [artist.value]);
        }
        var instrument := Get(xs[j], "instrument");
        if instrument.None? {
          return;
        }
        acc := acc.(instruments := acc.instruments + [instrument.value]);
        j := j + 1;
      }
      var concerts := RecordingField(getRecording, rec, "concert");
      if concerts.None? {
        return;
      }
      var cs := AppendEach(acc.concerts, concerts.value);
      acc := acc.(concerts := cs);
      var works := RecordingField(getRecording, rec, "work");
      if works.None? {
        return;
      }
      var ws := AppendEach(acc.works, works.value);
      acc := acc.(works := ws);
      var ragas := RecordingField(getRecording, rec, "raaga");
      if ragas.None? {
        return;
      }
      var rs := AppendEach(acc.ragas, ragas.value);
      acc := acc.(ragas := rs);
      var talas := RecordingField(getRecording, rec, "taala");
      if talas.None? {
        return;
      }
      var ts := AppendEach(acc.talas, talas.value);
      acc := acc.(talas := ts);
      acc := acc.(recordings := acc.recordings + [Get(rec, "mbid").value]);
    }

    /** `_get_metadata`: visit the collection in order, skip recordings whose reads fail, then deduplicate. */
    method GetMetadataLists(query: map<string, Value>, getRecording: map<Value, Value>) returns (r: Option<Lists>)
      ensures r == Gathered(Collection(Fetch(query, "document/" + collection)), getRecording)
    {
      var listed := GetCollection(query);
      if listed.None? {
        return None;
      }
      var coll := listed.value;
      var acc := NoLists;
      for i := 0 to |coll|
        invariant acc == Accumulate(coll[..i], getRecording)
      {
        AccumulateNext(coll, i, getRecording);
        acc := ParseRecording(acc, coll[i], getRecording);
      }
      assert coll[..|coll|] == coll;
      r := Deduplicated(acc);
    }

    /** `get_metadata`: on success store the seven lists; any failure raises and leaves the object as it was. */
    method GetMetadata(query: map<string, Value>, getRecording: map<Value, Value>) returns (ok: bool)
      modifies this
      ensures ok == Gathered(Collection(Fetch(query, "document/" + collection)), getRecording).Some?
      ensures ok ==> Metadata() == Gathered(Collection(Fetch(query, "document/" + collection)), getRecording).value
      ensures !ok ==> Metadata() == old(Metadata())
    {
      var metadata := GetMetadataLists(query, getRecording);
      if metadata.None? {
        return false;
      }
      var m := metadata.value;
      recordingList, artistList, concertList, workList := m.recordings, m.artists, m.concerts, m.works;
      ragaList, talaList, instrumentList := m.ragas, m.talas, m.instruments;
      ok := true;
    }
  }

  // ---------------------------------------------------------------------
  // Writer dispatch in `save_annotation`

  datatype Writer = ScalarText | JsonFile | CsvFile

  datatype SaveError =
    | NoSubtype     // `"tonic" in None` raises a TypeError
    | Unsupported   // the ValueError for an unknown subtype

  /** The writer `save_annotation` picks for a subtype: the first matching test wins. */
  function SelectWriter(subtype: Option<string>): (r: Result<Writer, SaveError>)
    ensures subtype.None? <==> r == Err(NoSubtype)
    ensures subtype.Some? ==> var s := subtype.value;
      && (r == Ok(ScalarText) <==> Contains(s, "tonic") || Contains(s, "aksharaPeriod"))
      && (r == Ok(JsonFile) <==> !Contains(s, "tonic") && !Contains(s, "aksharaPeriod") && Contains(s, "section"))
      && (r == Ok(CsvFile) <==>
            && !Contains(s, "tonic") && !Contains(s, "aksharaPeriod") && !Contains(s, "section")
            && (Contains(s, "APcurve") || Contains(s, "pitch") || Contains(s, "aksharaTicks")))
      && (r == Err(Unsupported) <==>
            !exists key :: key in SubtypeKeys && Contains(s, key))
  {
    match subtype
    case None => Err(NoSubtype)
    case Some(s) =>
      if Contains(s, "tonic") || Contains(s, "aksharaPeriod") then Ok(ScalarText)
      else if Contains(s, "section") then Ok(JsonFile)
      else if Contains(s, "APcurve") then Ok(CsvFile)
      else if Contains(s, "pitch") || Contains(s, "aksharaTicks") then Ok(CsvFile)
      else Err(Unsupported)
  }

  /** The six substrings `save_annotation` tests for. */
  const SubtypeKeys: set<string> := {"tonic", "aksharaPeriod", "section", "APcurve", "pitch", "aksharaTicks"}

  /** A pitch subtype is written as CSV, a tonic as a scalar, and an unknown subtype is refused. */
  lemma SelectWriterExamples()
    ensures SelectWriter(Some("pitch")) == Ok(CsvFile)
    ensures SelectWriter(Some("tonic")) == Ok(ScalarText)
    ensures SelectWriter(Some("foobar")) == Err(Unsupported)
  {
    assert OccursAt("pitch", "pitch", 0);
    assert OccursAt("tonic", "tonic", 0);
    assert !Contains("pitch", "tonic") by {
      forall i | 0 <= i <= 0 ensures !OccursAt("pitch", "tonic", i) { assert "pitch"[0] != "tonic"[0]; }
    }
    forall key | key in SubtypeKeys ensures !Contains("foobar", key) {
      forall i | 0 <= i <= |"foobar"| ensures !OccursAt("foobar", key, i) {
        if 0 <= i <= |"foobar"| - |key| {
          assert "foobar"[i] != key[0];
        }
      }
    }
  }

  // ---------------------------------------------------------------------
  // Names of downloaded files

  datatype DownloadError = MissingOutputDirectory | Failed

  /** `"%s" % v` for the string and integer values the client formats. */
  function Render(v: Value): Option<string>
  {
    match v
    case Str(s) => Some(s)
    case Int(i) => Some(DecimalString(i))
    case _ => None
  }

  /** `name.replace("/", "-")`. */
  function Sanitize(s: string): string
  {
    ReplaceChar(s, '/', '-')
  }

  /** `"%s - %s" % (" and ".join(artists), title)`. */
  function Label(artists: seq<string>, title: string): string
  {
    Join(artists, " and ") + " - " + title
  }

  /** The mp3 name for a recording that belongs to a concert. */
  function ConcertMp3Name(artists: seq<string>, title: string): string
  {
    Sanitize(Label(artists, title) + ".mp3")
  }

  /** The directory a concert is downloaded into. */
  function ConcertDirName(artists: seq<string>, title: string): string
  {
    Sanitize(Label(artists, title))
  }

  /** `"%s - %s - %s - %s.mp3" % (disc, disctrack, artists, title)`: no replacement here. */
  function TrackName(disc: string, disctrack: string, artists: string, title: string): string
  {
    disc + " - " + disctrack + " - " + artists + " - " + title + ".mp3"
  }

  /** The concert mp3 name is the caption with every `/` turned into `-`, followed by `.mp3`. */
  lemma ConcertMp3NameSpec(artists: seq<string>, title: string)
    ensures |ConcertMp3Name(artists, title)| == |Label(artists, title)| + 4
    ensures ConcertMp3Name(artists, title)[|Label(artists, title)|..] == ".mp3"
    ensures '/' !in ConcertMp3Name(artists, title)
    ensures forall i :: 0 <= i < |Label(artists, title)| ==>
      ConcertMp3Name(artists, title)[i] == if Label(artists, title)[i] == '/' then '-' else Label(artists, title)[i]
  {
    var caption := Label(artists, title);
    assert (caption + ".mp3")[|caption|..] == ".mp3";
    ReplaceCharConcat(caption, ".mp3", '/', '-');
  }

  /** A recording's mp3 name is its concert's directory name plus `.mp3`. */
  lemma ConcertMp3NameIsDirName(artists: seq<string>, title: string)
    ensures ConcertMp3Name(artists, title) == ConcertDirName(artists, title) + ".mp3"
  {
    ReplaceCharConcat(Label(artists, title), ".mp3", '/', '-');
    assert Sanitize(".mp3") == ".mp3";
  }

  /** Track names keep a `/` of the title, unlike the directory they are written into. */
  lemma TrackNameKeepsSlash(disc: string, disctrack: string, artists: string, title: string, i: nat)
    requires i < |title| && title[i] == '/'
    ensures '/' in TrackName(disc, disctrack, artists, title)
  {
    var prefix := disc + " - " + disctrack + " - " + artists + " - ";
    assert TrackName(disc, disctrack, artists, title)[|prefix| + i] == '/';
  }

  /** `" and ".join([a["name"] for a in concert["concert_artists"]])` needs every name to be a string. */
  function ConcertArtists(concert: Value): Option<seq<string>>
  {
    match Get(concert, "concert_artists")
    case None => None
    case Some(list) =>
      match Items(list)
      case None => None
      case Some(xs) =>
        if forall i :: 0 <= i < |xs| ==> Get(xs[i], "name").Some? && Get(xs[i], "name").value.Str? then
          Some(seq(|xs|, i requires 0 <= i < |xs| && Get(xs[i], "name").Some? && Get(xs[i], "name").value.Str? => Get(xs[i], "name").value.s))
        else None
  }

  /** The concert `get_concert(recording["concert"][0]["mbid"])` answers with. */
  function ConcertOfRecording(rec: Value, getConcert: map<Value, Value>): Option<Value>
  {
    match Get(rec, "concert")
    case None => None
    case Some(cv) =>
      match Items(cv)
      case None => None
      case Some(concerts) =>
        if concerts == [] then None
        else
          match Get(concerts[0], "mbid")
          case None => None
          case Some(cmbid) => Fetch(getConcert, cmbid)
  }

  /** The name `download_mp3` saves under and returns. */
  function DownloadMp3Name(recordingId: string, dirExists: bool, recording: Option<Value>, getConcert: map<Value, Value>): (r: Result<string, DownloadError>)
    ensures !dirExists <==> r == Err(MissingOutputDirectory)
    ensures dirExists && recording.Some? && recording.value.Object? && "concert" !in recording.value.fields ==>
      r == Ok(recordingId + ".mp3")
    ensures r.Ok? ==> recording.Some? && recording.value.Object?
    ensures r.Ok? && "concert" in recording.value.fields ==>
      && ConcertOfRecording(recording.value, getConcert).Some?
      && ConcertArtists(ConcertOfRecording(recording.value, getConcert).value).Some?
      && Get(recording.value, "title").Some?
      && Render(Get(recording.value, "title").value).Some?
      && r.value == ConcertMp3Name(ConcertArtists(ConcertOfRecording(recording.value, getConcert).value).value,
                                   Render(Get(recording.value, "title").value).value)
    ensures (&& dirExists && recording.Some? && recording.value.Object? && "concert" in recording.value.fields
             && ConcertOfRecording(recording.value, getConcert).Some?
             && ConcertArtists(ConcertOfRecording(recording.value, getConcert).value).Some?
             && Get(recording.value, "title").Some?
             && Render(Get(recording.value, "title").value).Some?)
            ==> r.Ok?
    ensures r.Ok? && "concert" in recording.value.fields ==>
      '/' !in r.value && |r.value| >= 4 && r.value[|r.value| - 4..] == ".mp3"
  {
    if !dirExists then Err(MissingOutputDirectory)
    else
      match recording
      case None => Err(Failed)
      case Some(rec) =>
        if !rec.Object? then Err(Failed)
        else if "concert" in rec.fields then
          match ConcertOfRecording(rec, getConcert)
          case None => Err(Failed)
          case Some(concert) =>
            match Get(rec, "title")
            case None => Err(Failed)
            case Some(t) =>
              match ConcertArtists(concert)
              case None => Err(Failed)
              case Some(artists) =>
                match Render(t)
                case None => Err(Failed)
                case Some(title) =>
                  ConcertMp3NameSpec(artists, title);
                  Ok(ConcertMp3Name(artists, title))
        else Ok(recordingId + ".mp3")
  }

  /** The directory and track names `download_concert` writes. */
  function DownloadConcertNames(dirExists: bool, concert: Option<Value>): (r: Result<(string, seq<string>), DownloadError>)
    ensures !dirExists <==> r == Err(MissingOutputDirectory)
    ensures r.Ok? ==> '/' !in r.value.0
    ensures r.Ok? ==>
      && concert.Some?
      && ConcertArtists(concert.value).Some?
      && Get(concert.value, "title").Some?
      && Render(Get(concert.value, "title").value).Some?
      && r.value.0 == ConcertDirName(ConcertArtists(concert.value).value, Render(Get(concert.value, "title").value).value)
    ensures r.Ok? ==> concert.Some? && Get(concert.value, "recordings").Some? && Items(Get(concert.value, "recordings").value).Some?
    ensures r.Ok? ==> |r.value.1| == |Items(Get(concert.value, "recordings").value).value|
    ensures r.Ok? ==>
      var recs := Items(Get(concert.value, "recordings").value).value;
      forall i :: 0 <= i < |recs| ==>
        && TrackReadable(recs[i])
        && r.value.1[i] == TrackName(Render(Get(recs[i], "disc").value).value, Render(Get(recs[i], "disctrack").value).value,
                                     Join(ConcertArtists(concert.value).value, " and "), Render(Get(recs[i], "title").value).value)
    ensures (&& dirExists && concert.Some?
             && ConcertArtists(concert.value).Some?
             && Get(concert.value, "title").Some? && Render(Get(concert.value, "title").value).Some?
             && Get(concert.value, "recordings").Some? && Items(Get(concert.value, "recordings").value).Some?
             && (forall i :: 0 <= i < |Items(Get(concert.value, "recordings").value).value| ==>
                   TrackReadable(Items(Get(concert.value, "recordings").value).value[i])))
      ==> r.Ok?
  {
    if !dirExists then Err(MissingOutputDirectory)
    else
      match concert
      case None => Err(Failed)
      case Some(c) =>
        match ConcertArtists(c)
        case None => Err(Failed)
        case Some(artists) =>
          match Get(c, "title")
          case None => Err(Failed)
          case Some(t) =>
            match Render(t)
            case None => Err(Failed)
            case Some(title) =>
              match Get(c, "recordings")
              case None => Err(Failed)
              case Some(rl) =>
                match Items(rl)
                case None => Err(Failed)
                case Some(recs) =>
                  if forall i :: 0 <= i < |recs| ==> TrackReadable(recs[i]) then
                    Ok((ConcertDirName(artists, title),
                        seq(|recs|, i requires 0 <= i < |recs| && TrackReadable(recs[i]) =>
                          TrackName(Render(Get(recs[i], "disc").value).value, Render(Get(recs[i], "disctrack").value).value,
                                    Join(artists, " and "), Render(Get(recs[i], "title").value).value))))
                  else Err(Failed)
  }

  /** The reads of one track of a concert: its mbid, title, disc and disc track. */
  predicate TrackReadable(r: Value)
  {
    && Get(r, "mbid").Some?
    && Get(r, "title").Some? && Render(Get(r, "title").value).Some?
    && Get(r, "disc").Some? && Render(Get(r, "disc").value).Some?
    && Get(r, "disctrack").Some? && Render(Get(r, "disctrack").value).Some?
  }
}
