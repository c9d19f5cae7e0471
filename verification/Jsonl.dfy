/** The append-only sink with its resume manifest, under crashes between its write steps. */
module Jsonl {
  import opened Collections
  import opened Models

  /** One line of the data file; the raw HTML of an article is not written. */
  datatype Record = Record(
    id: Digest,
    url: string,
    title: string,
    content: string,
    author: Option<string>,
    publishDate: Option<int>,
    metadata: map<string, string>)

  /** The two files; appending one line is atomic. */
  datatype Disk = Disk(data: seq<Record>, manifest: seq<Digest>)

  /** What a sink instance remembers. */
  datatype Memory = Memory(seenUrls: set<Digest>, seenContent: set<Digest>)

  function Loaded(disk: Disk): Memory {
    Memory(set id | id in disk.manifest, {})
  }

  predicate Seen(memory: Memory, url: string) {
    UrlId(url) in memory.seenUrls
  }

  function ContentHash(article: Article): Digest {
    Sha256(article.content)
  }

  function RecordOf(article: Article): Record {
    Record(UrlId(article.url), article.url, article.title, article.content, article.author, article.publishDate, article.metadata)
  }

  /** Whether `write` gets as far as appending anything. */
  predicate Appends(memory: Memory, result: ScrapeResult) {
    Storable(result) && ContentHash(result.article.value) !in memory.seenContent
  }

  // The three steps of a write that appends.

  function AppendData(disk: Disk, article: Article): Disk {
    disk.(data := disk.data + [RecordOf(article)])
  }

  function AppendManifest(disk: Disk, article: Article): Disk {
    disk.(manifest := disk.manifest + [UrlId(article.url)])
  }

  function Remember(memory: Memory, article: Article): Memory {
    Memory(memory.seenUrls + {UrlId(article.url)}, memory.seenContent + {ContentHash(article)})
  }

  /** A history of the files: the running sink, if any, and where its records begin. */
  datatype World = World(disk: Disk, running: Option<Memory>, start: nat)

  /** How far a write gets before the process dies, if it does. */
  datatype Fate = Completes | DiesAfterData | DiesAfterManifest

  datatype Step =
    | Open
    | Write(result: ScrapeResult, gated: bool, fate: Fate)
    | Crash

  predicate Legal(w: World, step: Step) {
    step.Write? || step.Crash? ==> w.running.Some?
  }

  /** A gated write asks `seen` first. */
  predicate Writes(w: World, step: Step)
    requires Legal(w, step)
  {
    step.Write? && Appends(w.running.value, step.result) && !(step.gated && Seen(w.running.value, step.result.article.value.url))
  }

  function Next(w: World, step: Step): World
    requires Legal(w, step)
  {
    match step
    case Open => World(w.disk, Some(Loaded(w.disk)), |w.disk.data|)
    case Crash => w.(running := None)
    case Write(result, _, fate) =>
      if !Writes(w, step) then w else
      var article := result.article.value;
      var written := AppendData(w.disk, article);
      match fate
      case DiesAfterData => w.(disk := written, running := None)
      case DiesAfterManifest => w.(disk := AppendManifest(written, article), running := None)
      case Completes => w.(disk := AppendManifest(written, article), running := Some(Remember(w.running.value, article)))
  }

  predicate LegalRun(w: World, steps: seq<Step>)
    decreases |steps|
  {
    steps != [] ==> Legal(w, steps[0]) && LegalRun(Next(w, steps[0]), steps[1..])
  }

  function Run(w: World, steps: seq<Step>): World
    requires LegalRun(w, steps)
    decreases |steps|
  {
    if steps == [] then w else Run(Next(w, steps[0]), steps[1..])
  }

  const Empty := World(Disk([], []), None, 0)

  function Count(data: seq<Record>, id: Digest): nat {
    if data == [] then 0 else Count(data[..|data| - 1], id) + if data[|data| - 1].id == id then 1 else 0
  }

  /** The crashes of a run that fell between the data append and the manifest append of `id`. */
  function TornWrites(w: World, steps: seq<Step>, id: Digest): nat
    requires LegalRun(w, steps)
    decreases |steps|
  {
    if steps == [] then 0 else Torn(w, steps[0], id) + TornWrites(Next(w, steps[0]), steps[1..], id)
  }

  /** 1 when this step is such a crash. */
  function Torn(w: World, step: Step, id: Digest): nat
    requires Legal(w, step)
  {
    if Writes(w, step) && step.fate == DiesAfterData && UrlId(step.result.article.value.url) == id then 1 else 0
  }

  ghost predicate OnDisk(disk: Disk, id: Digest) {
    exists r :: r in disk.data && r.id == id
  }

  ghost predicate Inv(w: World) {
    && (forall id :: id in w.disk.manifest ==> OnDisk(w.disk, id))
    && (forall r :: r in w.disk.data ==> r.id == UrlId(r.url))
    && w.start <= |w.disk.data|
    && (forall i, j :: w.start <= i < j < |w.disk.data| ==>
        w.disk.data[i].content != w.disk.data[j].content)
    && (w.running.Some? ==> RunningOk(w))
  }

  /** A record of the current run has this content. */
  ghost predicate Emitted(disk: Disk, start: nat, hash: Digest) {
    exists i :: start <= i < |disk.data| && Sha256(disk.data[i].content) == hash
  }

  /** The running sink knows exactly the manifest, and exactly the contents of the records it wrote. */
  ghost predicate RunningOk(w: World)
    requires w.running.Some? && w.start <= |w.disk.data|
  {
    && (forall id :: id in w.running.value.seenUrls <==> id in w.disk.manifest)
    && (forall hash :: hash in w.running.value.seenContent <==> Emitted(w.disk, w.start, hash))
  }

  lemma EmittedAppend(before: Disk, after: Disk, start: nat, article: Article)
    requires start <= |before.data| && after.data == before.data + [RecordOf(article)]
    ensures forall hash :: Emitted(after, start, hash) <==> Emitted(before, start, hash) || hash == ContentHash(article)
  {
    assert Sha256(after.data[|before.data|].content) == ContentHash(article);
    forall hash | Emitted(before, start, hash) ensures Emitted(after, start, hash) {
      var i :| start <= i < |before.data| && Sha256(before.data[i].content) == hash;
      assert Sha256(after.data[i].content) == hash;
    }
  }

  lemma StepKeepsInv(w: World, step: Step)
    requires Inv(w) && Legal(w, step)
    ensures Inv(Next(w, step))
  {
    var w' := Next(w, step);
    if Writes(w, step) {
      var article := step.result.article.value;
      var id := UrlId(article.url);
      assert w'.disk.data == w.disk.data + [RecordOf(article)];
      EmittedAppend(w.disk, w'.disk, w.start, article);
      assert RecordOf(article) in w'.disk.data;
      forall x | x in w'.disk.manifest ensures OnDisk(w'.disk, x) {
        if x in w.disk.manifest {
          assert OnDisk(w.disk, x);
          var r :| r in w.disk.data && r.id == x;
          assert r in w'.disk.data;
        }
      }
    }
  }

  lemma {:induction false} RunKeepsInv(w: World, steps: seq<Step>)
    requires Inv(w) && LegalRun(w, steps)
    ensures Inv(Run(w, steps))
    decreases |steps|
  {
    if steps != [] {
      StepKeepsInv(w, steps[0]);
      RunKeepsInv(Next(w, steps[0]), steps[1..]);
    }
  }

  /** The line says what the article is. */
  ghost predicate Describes(r: Record, article: Article) {
    && r.id == Sha256(article.url) && r.url == article.url && r.title == article.title && r.content == article.content
    && r.author == article.author && r.publishDate == article.publishDate && r.metadata == article.metadata
  }

  /** A write that appends, whether it completes or not, adds one line that says what the article is. */
  ghost predicate Appended(before: Disk, after: Disk, article: Article, fate: Fate) {
    && |after.data| == |before.data| + 1 && after.data[..|before.data|] == before.data
    && Describes(after.data[|before.data|], article)
    && after.manifest == if fate == DiesAfterData then before.manifest else before.manifest + [Sha256(article.url)]
  }

  /**
   What a write leaves on disk: nothing new unless it is a success with an article whose content this
   sink has not emitted, and, when gated, whose URL it has not seen.
   */
  lemma WriteMeaning(w: World, result: ScrapeResult, gated: bool, fate: Fate)
    requires w.running.Some?
    ensures var memory, after := w.running.value, Next(w, Write(result, gated, fate)).disk;
      if result.status == Success && result.article.Some?
        && Sha256(result.article.value.content) !in memory.seenContent
        && !(gated && Sha256(result.article.value.url) in memory.seenUrls)
      then Appended(w.disk, after, result.article.value, fate)
      else after == w.disk
  {
  }

  /** Some step of the run writes an article that this line describes. */
  ghost predicate WrittenIn(steps: seq<Step>, r: Record) {
    exists s :: s in steps && Describing(s, r)
  }

  ghost predicate Describing(s: Step, r: Record) {
    s.Write? && s.result.status == Success && s.result.article.Some? && Describes(r, s.result.article.value)
  }

  lemma {:induction false} RecordsWritten(w: World, steps: seq<Step>)
    requires LegalRun(w, steps)
    ensures forall r :: r in Run(w, steps).disk.data ==> r in w.disk.data || WrittenIn(steps, r)
    decreases |steps|
  {
    if steps != [] {
      var step, w' := steps[0], Next(w, steps[0]);
      RecordsWritten(w', steps[1..]);
      forall r | r in w'.disk.data ensures r in w.disk.data || Describing(step, r) {
        if step.Write? {
          WriteMeaning(w, step.result, step.gated, step.fate);
        }
      }
      forall r | r in Run(w, steps).disk.data ensures r in w.disk.data || WrittenIn(steps, r) {
        if WrittenIn(steps[1..], r) {
          var s :| s in steps[1..] && Describing(s, r);
          assert s in steps;
        } else {
          assert step in steps;
        }
      }
    }
  }

  /** Every line on disk describes an article that the run was told to write. */
  lemma NothingInvented(steps: seq<Step>)
    requires LegalRun(Empty, steps)
    ensures forall r :: r in Run(Empty, steps).disk.data ==> WrittenIn(steps, r)
  {
    RecordsWritten(Empty, steps);
  }

  /**
   After any runs and crashes, gated or not: what the manifest or a sink calls seen is on disk, as the
   line of an article of that URL that was written.
   */
  lemma SeenIsOnDisk(steps: seq<Step>, url: string)
    requires LegalRun(Empty, steps)
    ensures var w := Run(Empty, steps);
      Sha256(url) in w.disk.manifest || (w.running.Some? && Seen(w.running.value, url)) ==>
        exists r :: r in w.disk.data && r.url == url && WrittenIn(steps, r)
  {
    RunKeepsInv(Empty, steps);
    RecordsWritten(Empty, steps);
    var w := Run(Empty, steps);
    if Sha256(url) in w.disk.manifest {
      assert OnDisk(w.disk, Sha256(url));
    }
  }

  /** Within one run of a sink no two records share content. */
  lemma NoRepeatedContent(steps: seq<Step>, i: nat, j: nat)
    requires LegalRun(Empty, steps)
    requires Run(Empty, steps).start <= i < j < |Run(Empty, steps).disk.data|
    ensures var data := Run(Empty, steps).disk.data; data[i].content != data[j].content
  {
    RunKeepsInv(Empty, steps);
  }

  predicate AllGated(steps: seq<Step>) {
    forall s :: s in steps && s.Write? ==> s.gated
  }

  /**
   With gated writes a URL has one record for each crash between its two appends, and one more once
   it is in the manifest.
   */
  lemma RecordsPerUrl(steps: seq<Step>, id: Digest)
    requires LegalRun(Empty, steps) && AllGated(steps)
    ensures var w := Run(Empty, steps);
      Count(w.disk.data, id) == TornWrites(Empty, steps, id) + Listed(w.disk, id) <= TornWrites(Empty, steps, id) + 1
  {
    CountBound(Empty, steps, id);
  }

  function Listed(disk: Disk, id: Digest): nat {
    if id in disk.manifest then 1 else 0
  }

  /** One step: records and manifest of `id` grow together, except in a torn write. */
  lemma CountStep(w: World, step: Step, id: Digest)
    requires Inv(w) && Legal(w, step) && (step.Write? ==> step.gated)
    ensures var w' := Next(w, step);
      Count(w'.disk.data, id) + Listed(w.disk, id) == Count(w.disk.data, id) + Listed(w'.disk, id) + Torn(w, step, id)
  {
    if Writes(w, step) {
      assert Next(w, step).disk.data[..|w.disk.data|] == w.disk.data;
    }
  }

  lemma {:induction false} CountBound(w: World, steps: seq<Step>, id: Digest)
    requires Inv(w) && LegalRun(w, steps) && AllGated(steps)
    ensures Count(Run(w, steps).disk.data, id) + Listed(w.disk, id)
      == Count(w.disk.data, id) + Listed(Run(w, steps).disk, id) + TornWrites(w, steps, id)
    decreases |steps|
  {
    if steps != [] {
      assert steps[0] in steps;
      StepKeepsInv(w, steps[0]);
      CountStep(w, steps[0], id);
      CountBound(Next(w, steps[0]), steps[1..], id);
    }
  }

  /**
   A write does not ask `seen` itself: at any sink that can be reached, for a URL it has already seen, a
   completed ungated write leaves the files alone if and only if its content was emitted in this run.
   Otherwise it appends one more record of that URL.
   */
  lemma WriteOfSeenUrl(steps: seq<Step>, result: ScrapeResult)
    requires LegalRun(Empty, steps) && Run(Empty, steps).running.Some? && Storable(result)
    requires Seen(Run(Empty, steps).running.value, result.article.value.url)
    ensures var w := Run(Empty, steps);
      var after := Next(w, Write(result, false, Completes));
      var id := UrlId(result.article.value.url);
      && OnDisk(w.disk, id)
      && (after.disk == w.disk <==> Emitted(w.disk, w.start, ContentHash(result.article.value)))
      && Count(after.disk.data, id)
         == Count(w.disk.data, id) + if Emitted(w.disk, w.start, ContentHash(result.article.value)) then 0 else 1
  {
    RunKeepsInv(Empty, steps);
    var w := Run(Empty, steps);
    var after := Next(w, Write(result, false, Completes));
    if Appends(w.running.value, result) {
      assert after.disk.data[..|w.disk.data|] == w.disk.data;
      assert |after.disk.data| == |w.disk.data| + 1;
    }
  }

  function Page(url: string, content: string): ScrapeResult {
    ScrapeResult(Success, "curl_cffi", Some(Article(url, "", content, None, None, None, map[])))
  }

  /** Two versions of one page in a fresh run: the sink stores both, although it has seen the URL. */
  lemma TwoVersionsTwoRecords(url: string, one: string, other: string)
    requires one != other
    ensures var steps := [Open, Write(Page(url, one), false, Completes), Write(Page(url, other), false, Completes)];
      LegalRun(Empty, steps) && Count(Run(Empty, steps).disk.data, UrlId(url)) == 2
  {
    hide Run, LegalRun, Next, Count;
    var first, second := Write(Page(url, one), false, Completes), Write(Page(url, other), false, Completes);
    OpenedFresh();
    FirstVersion(Next(Empty, Open), url, one);
    var mid := Next(Next(Empty, Open), first);
    WriteMeaning(mid, Page(url, other), false, Completes);
    RunOfThree(Empty, Open, first, second);
    CountTwo(Next(mid, second).disk.data, Sha256(url));
  }

  lemma OpenedFresh()
    ensures Next(Empty, Open).running == Some(Memory({}, {})) && Next(Empty, Open).disk.data == []
  {
    assert (set id | id in Empty.disk.manifest) == {};
  }

  lemma CountTwo(data: seq<Record>, id: Digest)
    requires |data| == 2 && data[0].id == id && data[1].id == id
    ensures Count(data, id) == 2
  {
    var one := data[..1];
    assert one[..0] == [] && one[0] == data[0];
    assert Count(one, id) == Count(one[..0], id) + 1;
  }

  lemma FirstVersion(w: World, url: string, content: string)
    requires w.running == Some(Memory({}, {})) && w.disk.data == []
    ensures var mid := Next(w, Write(Page(url, content), false, Completes));
      && mid.running.Some? && mid.running.value.seenContent == {Sha256(content)}
      && |mid.disk.data| == 1 && mid.disk.data[0].id == Sha256(url)
  {
  }

  lemma RunOfThree(w: World, a: Step, b: Step, c: Step)
    requires Legal(w, a) && Legal(Next(w, a), b) && Legal(Next(Next(w, a), b), c)
    ensures LegalRun(w, [a, b, c]) && Run(w, [a, b, c]) == Next(Next(Next(w, a), b), c)
  {
    hide Next;
    assert [a, b, c][1..] == [b, c] && [b, c][1..] == [c];
    RunOfOne(Next(Next(w, a), b), c);
    assert LegalRun(Next(w, a), [b, c]) && Run(Next(w, a), [b, c]) == Run(Next(Next(w, a), b), [c]);
  }

  lemma RunOfOne(w: World, step: Step)
    requires Legal(w, step)
    ensures LegalRun(w, [step]) && Run(w, [step]) == Next(w, step)
  {
    assert [step][1..] == [];
  }

  class Files {
    var disk: Disk

    constructor ()
      ensures disk == Disk([], [])
    {
      disk := Disk([], []);
    }
  }

  class JsonlSink {
    const files: Files
    var seenUrls: set<Digest>
    var seenContent: set<Digest>

    ghost function State(start: nat): World
      reads this, files
    {
      World(files.disk, Some(Memory(seenUrls, seenContent)), start)
    }

    /** Loads the manifest: the sink starts as `Open` leaves it. */
    constructor (files: Files)
      ensures this.files == files && files.disk == old(files.disk)
      ensures State(|files.disk.data|) == Next(World(files.disk, None, 0), Open)
    {
      this.files := files;
      seenUrls := set id | id in files.disk.manifest;
      seenContent := {};
    }

    method IsSeen(url: string) returns (seen: bool)
      ensures seen <==> Seen(Memory(seenUrls, seenContent), url)
    {
      return UrlId(url) in seenUrls;
    }

    method Store(result: ScrapeResult, ghost start: nat)
      modifies this, files
      ensures State(start) == Next(old(State(start)), Write(result, false, Completes))
      ensures if result.status == Success && result.article.Some? && Sha256(result.article.value.content) !in old(seenContent)
        then Appended(old(files.disk), files.disk, result.article.value, Completes)
        else files.disk == old(files.disk)
    {
      WriteMeaning(World(files.disk, Some(Memory(seenUrls, seenContent)), start), result, false, Completes);
      if result.status != Success || result.article == None {
        return;
      }
      var article := result.article.value;
      var contentHash := Sha256(article.content);
      if contentHash in seenContent {
        return;
      }
      var docId := UrlId(article.url);
      var record := Record(docId, article.url, article.title, article.content, article.author, article.publishDate,
                           article.metadata);
      files.disk := files.disk.(data := files.disk.data + [record]);
      files.disk := files.disk.(manifest := files.disk.manifest + [docId]);
      seenUrls := seenUrls + {docId};
      seenContent := seenContent + {contentHash};
    }
  }
}
