/**
 The hash-gated cache of profile embeddings.  The gate compares a hash of a joined key; the cache is
 coherent exactly as far as that key determines the text that is embedded.
 */
module ProfileCache {
  import opened Collections
  import opened Models

  datatype Profile = Profile(portfolio: seq<string>, sectors: seq<string>, focus: Option<string>)

  function Join(separator: string, parts: seq<string>): string {
    if parts == [] then "" else if |parts| == 1 then parts[0] else parts[0] + separator + Join(separator, parts[1..])
  }

  /** `s or default`. */
  function Or(s: string, default: string): string {
    if s == "" then default else s
  }

  function FocusOf(p: Profile): string {
    if p.focus.Some? then p.focus.value else ""
  }

  function Text(p: Profile): string {
    "Investor profile. Portfolio holdings: " + Or(Join(", ", p.portfolio), "(none)")
    + ". Sectors of interest: " + Or(Join(", ", p.sectors), "(none)")
    + ". Focus: " + Or(FocusOf(p), "general investing") + "."
  }

  // What the text handed to the provider says.

  /** `text[from..to]` is `part`. */
  predicate PartAt(text: string, part: string, from: nat, to: nat) {
    from <= to <= |text| && text[from..to] == part
  }

  /** The i-th entry begins at `at[i]`, and the next one right after a separator after its end. */
  predicate EntryAt(text: string, separator: string, entries: seq<string>, at: seq<nat>, i: nat)
    requires i < |entries| == |at|
  {
    && PartAt(text, entries[i], at[i], at[i] + |entries[i]|)
    && (i + 1 < |at| ==>
        at[i + 1] == at[i] + |entries[i]| + |separator| && PartAt(text, separator, at[i] + |entries[i]|, at[i + 1]))
  }

  /** All entries occur in order and fill the stretch. */
  ghost predicate Occur(text: string, separator: string, entries: seq<string>, at: seq<nat>, from: nat, to: nat) {
    && |at| == |entries| > 0 && at[0] == from && to == at[|at| - 1] + |entries[|at| - 1]|
    && forall i: nat :: i < |at| ==> EntryAt(text, separator, entries, at, i)
  }

  /** The entries in order or, when there is nothing to say, "(none)". */
  ghost predicate Listed(text: string, entries: seq<string>, from: nat, to: nat) {
    if entries == [] || entries == [""] then PartAt(text, "(none)", from, to)
    else exists at :: Occur(text, ", ", entries, at, from, to)
  }

  /** Where the holdings begin and end, where the sectors do, and where the focus does. */
  datatype Layout = Layout(holdings: nat, afterHoldings: nat, sectors: nat, afterSectors: nat, focus: nat, end: nat)

  /** The text tells the profile: its holdings, then its sectors, then its focus. */
  ghost predicate Tells(text: string, p: Profile, l: Layout) {
    && PartAt(text, "Investor profile. Portfolio holdings: ", 0, l.holdings)
    && Listed(text, p.portfolio, l.holdings, l.afterHoldings)
    && PartAt(text, ". Sectors of interest: ", l.afterHoldings, l.sectors)
    && Listed(text, p.sectors, l.sectors, l.afterSectors)
    && PartAt(text, ". Focus: ", l.afterSectors, l.focus)
    && PartAt(text, if p.focus.Some? && p.focus.value != "" then p.focus.value else "general investing", l.focus, l.end)
    && PartAt(text, ".", l.end, |text|)
  }

  /** Where the entries of a joined list begin, when the list begins at `from`. */
  function Starts(separator: string, entries: seq<string>, from: nat): (at: seq<nat>)
    ensures |at| == |entries|
  {
    if entries == [] then [] else [from] + Starts(separator, entries[1..], from + |entries[0]| + |separator|)
  }

  lemma PartOfPart(text: string, part: string, from: nat, to: nat, i: nat, j: nat)
    requires PartAt(text, part, from, to) && i <= j <= |part|
    ensures PartAt(text, part[i..j], from + i, from + j)
  {
    assert forall k :: 0 <= k < j - i ==> text[from..to][i..j][k] == text[from + i + k];
    assert text[from..to][i..j] == text[from + i..from + j];
  }

  lemma ThreeParts(text: string, x: string, y: string, z: string, from: nat, to: nat)
    requires PartAt(text, x + y + z, from, to)
    ensures var n := from + |x|;
      PartAt(text, x, from, n) && PartAt(text, y, n, n + |y|) && PartAt(text, z, n + |y|, to)
  {
    var s := x + y + z;
    assert s[0..|x|] == x && s[|x|..|x| + |y|] == y && s[|x| + |y|..|s|] == z;
    PartLength(text, s, from, to);
    PartOfPart(text, s, from, to, 0, |x|);
    PartOfPart(text, s, from, to, |x|, |x| + |y|);
    PartOfPart(text, s, from, to, |x| + |y|, |s|);
  }

  /** A joined list: its first entry, the separator, and the rest joined. */
  lemma JoinParts(text: string, separator: string, entries: seq<string>, from: nat, to: nat)
    requires |entries| > 1 && PartAt(text, Join(separator, entries), from, to)
    ensures var n := from + |entries[0]|;
      && PartAt(text, entries[0], from, n) && PartAt(text, separator, n, n + |separator|)
      && PartAt(text, Join(separator, entries[1..]), n + |separator|, to)
  {
    ThreeParts(text, entries[0], separator, Join(separator, entries[1..]), from, to);
  }

  lemma PartLength(text: string, part: string, from: nat, to: nat)
    requires PartAt(text, part, from, to)
    ensures to == from + |part| <= |text|
  {
  }

  lemma {:induction false} JoinOccurs(text: string, separator: string, entries: seq<string>, from: nat, to: nat)
    requires entries != [] && PartAt(text, Join(separator, entries), from, to)
    ensures Occur(text, separator, entries, Starts(separator, entries, from), from, to)
  {
    var at, n := Starts(separator, entries, from), from + |entries[0]| + |separator|;
    PartLength(text, Join(separator, entries), from, to);
    if |entries| > 1 {
      var rest := entries[1..];
      JoinParts(text, separator, entries, from, to);
      JoinOccurs(text, separator, rest, n, to);
      hide PartAt, Join;
      var later := Starts(separator, rest, n);
      forall i: nat | i < |at| ensures EntryAt(text, separator, entries, at, i) {
        if i > 0 {
          assert EntryAt(text, separator, rest, later, i - 1);
        }
      }
    }
  }

  lemma {:induction false} OccurJoined(text: string, separator: string, entries: seq<string>, at: seq<nat>, from: nat, to: nat)
    requires Occur(text, separator, entries, at, from, to)
    ensures PartAt(text, Join(separator, entries), from, to)
  {
    assert EntryAt(text, separator, entries, at, 0);
    if |entries| > 1 {
      var rest, later := entries[1..], at[1..];
      forall i: nat | i < |later| ensures EntryAt(text, separator, rest, later, i) {
        assert EntryAt(text, separator, entries, at, i + 1);
      }
      OccurJoined(text, separator, rest, later, at[1], to);
      var n := from + |entries[0]|;
      Glued(text, entries[0], separator, from, n, at[1]);
      Glued(text, entries[0] + separator, Join(separator, rest), from, at[1], to);
    }
  }

  lemma JoinEmpty(entries: seq<string>)
    ensures Join(", ", entries) == "" <==> entries == [] || entries == [""]
  {
    if |entries| > 1 {
      assert |Join(", ", entries)| >= 2;
    }
  }

  lemma IsListed(text: string, entries: seq<string>, from: nat, to: nat)
    requires PartAt(text, Or(Join(", ", entries), "(none)"), from, to)
    ensures Listed(text, entries, from, to)
  {
    JoinEmpty(entries);
    if entries != [] && entries != [""] {
      JoinOccurs(text, ", ", entries, from, to);
    }
  }

  lemma ListedIs(text: string, entries: seq<string>, from: nat, to: nat)
    requires Listed(text, entries, from, to)
    ensures PartAt(text, Or(Join(", ", entries), "(none)"), from, to)
  {
    JoinEmpty(entries);
    if entries != [] && entries != [""] {
      var at :| Occur(text, ", ", entries, at, from, to);
      OccurJoined(text, ", ", entries, at, from, to);
    }
  }

  /** Seven pieces one after the other. */
  lemma Pieces(a: string, b: string, c: string, d: string, e: string, f: string, g: string)
    ensures var text := a + b + c + d + e + f + g;
      var i, j, k := |a| + |b|, |a| + |b| + |c| + |d|, |a| + |b| + |c| + |d| + |e| + |f|;
      && PartAt(text, a, 0, |a|) && PartAt(text, b, |a|, i) && PartAt(text, c, i, i + |c|) && PartAt(text, d, i + |c|, j)
      && PartAt(text, e, j, j + |e|) && PartAt(text, f, j + |e|, k) && PartAt(text, g, k, |text|)
  {
  }

  /** The text of every profile tells it: no part is missing, swapped or out of order. */
  lemma TextTells(p: Profile)
    ensures exists l :: Tells(Text(p), p, l)
  {
    hide PartAt, Listed, Join;
    var a, c, e := "Investor profile. Portfolio holdings: ", ". Sectors of interest: ", ". Focus: ";
    var b, d := Or(Join(", ", p.portfolio), "(none)"), Or(Join(", ", p.sectors), "(none)");
    var f := Or(FocusOf(p), "general investing");
    var text := a + b + c + d + e + f + ".";
    Pieces(a, b, c, d, e, f, ".");
    var i, j := |a| + |b|, |a| + |b| + |c| + |d|;
    IsListed(text, p.portfolio, |a|, i);
    IsListed(text, p.sectors, i + |c|, j);
    assert Tells(text, p, Layout(|a|, i, i + |c|, j, j + |e|, j + |e| + |f|));
    assert text == Text(p);
  }

  lemma Glued(text: string, a: string, b: string, from: nat, mid: nat, to: nat)
    requires PartAt(text, a, from, mid) && PartAt(text, b, mid, to)
    ensures PartAt(text, a + b, from, to)
  {
    assert text[from..to] == text[from..mid] + text[mid..to];
  }

  lemma Assembled(text: string, a: string, b: string, c: string, d: string, e: string, f: string, g: string, l: Layout)
    requires PartAt(text, a, 0, l.holdings) && PartAt(text, b, l.holdings, l.afterHoldings)
    requires PartAt(text, c, l.afterHoldings, l.sectors) && PartAt(text, d, l.sectors, l.afterSectors)
    requires PartAt(text, e, l.afterSectors, l.focus) && PartAt(text, f, l.focus, l.end) && PartAt(text, g, l.end, |text|)
    ensures text == a + b + c + d + e + f + g
  {
    Glued(text, a, b, 0, l.holdings, l.afterHoldings);
    Glued(text, a + b, c, 0, l.afterHoldings, l.sectors);
    Glued(text, a + b + c, d, 0, l.sectors, l.afterSectors);
    Glued(text, a + b + c + d, e, 0, l.afterSectors, l.focus);
    Glued(text, a + b + c + d + e, f, 0, l.focus, l.end);
    Glued(text, a + b + c + d + e + f, g, 0, l.end, |text|);
  }

  /** Only that text does. */
  lemma OnlyTextTells(text: string, p: Profile, l: Layout)
    requires Tells(text, p, l)
    ensures text == Text(p)
  {
    ListedIs(text, p.portfolio, l.holdings, l.afterHoldings);
    ListedIs(text, p.sectors, l.sectors, l.afterSectors);
    hide Listed, Join, PartAt;
    Assembled(text, "Investor profile. Portfolio holdings: ", Or(Join(", ", p.portfolio), "(none)"),
              ". Sectors of interest: ", Or(Join(", ", p.sectors), "(none)"),
              ". Focus: ", Or(FocusOf(p), "general investing"), ".", l);
  }

  function Key(p: Profile): string {
    Join("|", p.portfolio) + "||" + Join("|", p.sectors) + "||" + FocusOf(p)
  }

  function Hash(p: Profile): Digest {
    Sha256(Key(p))
  }

  // The key can be decoded when entries are non-empty and free of bars.

  predicate Clean(entry: string) {
    entry != "" && '|' !in entry
  }

  ghost predicate AllClean(entries: seq<string>) {
    forall e :: e in entries ==> Clean(e)
  }

  ghost predicate CleanProfile(p: Profile) {
    AllClean(p.portfolio) && AllClean(p.sectors)
  }

  /** Neither two bars in a row, nor a bar at either end. */
  ghost predicate Tidy(s: string) {
    && (forall i :: 0 <= i < |s| - 1 && s[i] == '|' ==> s[i + 1] != '|')
    && (s != "" ==> s[0] != '|' && s[|s| - 1] != '|')
  }

  lemma {:induction false} JoinTidy(entries: seq<string>)
    requires AllClean(entries)
    ensures Tidy(Join("|", entries)) && (Join("|", entries) == "" <==> entries == [])
  {
    if entries != [] {
      assert Clean(entries[0]);
      if |entries| > 1 {
        JoinTidy(entries[1..]);
        BarBetween(entries[0], Join("|", entries[1..]));
      }
    }
  }

  lemma BarBetween(first: string, rest: string)
    requires Clean(first) && Tidy(rest) && rest != ""
    ensures Tidy(first + "|" + rest)
  {
    var s, n := first + "|" + rest, |first|;
    assert forall i :: 0 <= i < n ==> s[i] == first[i] && s[i] != '|';
    forall i | 0 <= i < |s| - 1 && s[i] == '|' ensures s[i + 1] != '|' {
      assert s[i + 1] == rest[i - n];
      assert i > n ==> s[i] == rest[i - n - 1];
    }
  }

  /** The first double bar of `a + "||" + x` is the one after `a`. */
  lemma SplitAtDoubleBar(a: string, x: string, b: string, y: string)
    requires Tidy(a) && Tidy(b) && a + "||" + x == b + "||" + y
    ensures a == b && x == y
  {
    var s := a + "||" + x;
    assert forall i :: 0 <= i < |a| ==> s[i] == a[i];
    assert forall i :: 0 <= i < |b| ==> s[i] == b[i];
    assert s[|a|] == '|' && s[|a| + 1] == '|' && s[|b|] == '|' && s[|b| + 1] == '|';
    assert |a| == |b|;
    assert a == s[..|a|] == b;
    assert x == s[|a| + 2..] == y;
  }

  /** The first bar of `a + "|" + x` is the one after `a`. */
  lemma SplitAtBar(a: string, x: string, b: string, y: string)
    requires '|' !in a && '|' !in b && a + "|" + x == b + "|" + y
    ensures a == b && x == y
  {
    var s := a + "|" + x;
    assert forall i :: 0 <= i < |a| ==> s[i] == a[i];
    assert forall i :: 0 <= i < |b| ==> s[i] == b[i];
    assert s[|a|] == '|' && s[|b|] == '|';
    assert |a| == |b|;
    assert a == s[..|a|] == b;
    assert x == s[|a| + 1..] == y;
  }

  lemma {:induction false} JoinInjective(a: seq<string>, b: seq<string>)
    requires AllClean(a) && AllClean(b) && Join("|", a) == Join("|", b)
    ensures a == b
  {
    JoinTidy(a);
    JoinTidy(b);
    if a != [] {
      assert Clean(a[0]) && Clean(b[0]);
      if |a| > 1 && |b| > 1 {
        SplitAtBar(a[0], Join("|", a[1..]), b[0], Join("|", b[1..]));
        JoinInjective(a[1..], b[1..]);
      } else {
        BarInJoin(a);
        BarInJoin(b);
      }
    }
  }

  lemma BarInJoin(entries: seq<string>)
    ensures |entries| > 1 ==> '|' in Join("|", entries)
  {
    if |entries| > 1 {
      assert Join("|", entries)[|entries[0]|] == '|';
    }
  }

  /** Equal keys of clean profiles mean equal profiles, up to an empty focus. */
  lemma KeyDecodes(p: Profile, q: Profile)
    requires CleanProfile(p) && CleanProfile(q) && Key(p) == Key(q)
    ensures p.portfolio == q.portfolio && p.sectors == q.sectors && FocusOf(p) == FocusOf(q)
    ensures Text(p) == Text(q)
  {
    JoinTidy(p.portfolio);
    JoinTidy(q.portfolio);
    JoinTidy(p.sectors);
    JoinTidy(q.sectors);
    var restP := Join("|", p.sectors) + "||" + FocusOf(p);
    var restQ := Join("|", q.sectors) + "||" + FocusOf(q);
    assert Key(p) == Join("|", p.portfolio) + "||" + restP;
    assert Key(q) == Join("|", q.portfolio) + "||" + restQ;
    SplitAtDoubleBar(Join("|", p.portfolio), restP, Join("|", q.portfolio), restQ);
    SplitAtDoubleBar(Join("|", p.sectors), FocusOf(p), Join("|", q.sectors), FocusOf(q));
    JoinInjective(p.portfolio, q.portfolio);
    JoinInjective(p.sectors, q.sectors);
  }

  // The job.

  type Vector = seq<real>

  datatype Stored = Stored(embedding: Vector, hash: Digest)

  datatype Entry = Entry(user: string, profile: Profile)

  /** The provider, one text at a time: equal texts get equal vectors. */
  type Embed = string -> Vector

  predicate Stale(e: Entry, vectors: map<string, Stored>) {
    e.user !in vectors || vectors[e.user].hash != Hash(e.profile)
  }

  function Changed(profiles: seq<Entry>, vectors: map<string, Stored>): seq<Entry> {
    if profiles == [] then [] else
    (if Stale(profiles[0], vectors) then [profiles[0]] else []) + Changed(profiles[1..], vectors)
  }

  function RowFor(p: Profile, embed: Embed): Stored {
    Stored(embed(Text(p)), Hash(p))
  }

  function StoreAll(changed: seq<Entry>, vectors: map<string, Stored>, embed: Embed): map<string, Stored> {
    if changed == [] then vectors else
    StoreAll(changed[1..], vectors[changed[0].user := RowFor(changed[0].profile, embed)], embed)
  }

  function EmbedProfiles(profiles: seq<Entry>, vectors: map<string, Stored>, embed: Embed): map<string, Stored> {
    StoreAll(Changed(profiles, vectors), vectors, embed)
  }

  // What the job is for.

  /** One row per user: `user_id` is the primary key. */
  ghost predicate OnePerUser(profiles: seq<Entry>) {
    forall i, j :: 0 <= i < j < |profiles| ==> profiles[i].user != profiles[j].user
  }

  /** A set of strings that may occur as entries. */
  type Admitted = iset<string>

  ghost predicate Over(p: Profile, admitted: Admitted) {
    (forall e :: e in p.portfolio ==> e in admitted) && (forall e :: e in p.sectors ==> e in admitted)
  }

  /** Every stored row was computed from some profile over `admitted`. */
  ghost predicate Computed(vectors: map<string, Stored>, embed: Embed, admitted: Admitted) {
    forall u :: u in vectors ==> exists p :: Over(p, admitted) && vectors[u] == RowFor(p, embed)
  }

  ghost predicate UpToDate(e: Entry, vectors: map<string, Stored>, embed: Embed) {
    e.user in vectors && vectors[e.user].embedding == embed(Text(e.profile))
  }

  ghost predicate AllOver(profiles: seq<Entry>, admitted: Admitted) {
    forall e :: e in profiles ==> Over(e.profile, admitted)
  }

  ghost predicate AllUpToDate(profiles: seq<Entry>, vectors: map<string, Stored>, embed: Embed) {
    forall e :: e in profiles ==> UpToDate(e, vectors, embed)
  }

  /** The vector table after a run for each of these profile tables, oldest first, starting from nothing. */
  function AfterRuns(history: seq<seq<Entry>>, embed: Embed): map<string, Stored> {
    if history == [] then map[] else
    EmbedProfiles(history[|history| - 1], AfterRuns(history[..|history| - 1], embed), embed)
  }

  ghost predicate Admits(admitted: Admitted, history: seq<seq<Entry>>) {
    forall profiles :: profiles in history ==> OnePerUser(profiles) && AllOver(profiles, admitted)
  }

  /** Whatever the provider, and however profiles change between runs: each run leaves every vector current. */
  ghost predicate AlwaysUpToDate(admitted: Admitted) {
    forall embed: Embed, history: seq<seq<Entry>> ::
      history != [] && Admits(admitted, history)
      ==> AllUpToDate(history[|history| - 1], AfterRuns(history, embed), embed)
  }

  lemma {:induction false} ChangedMeaning(profiles: seq<Entry>, vectors: map<string, Stored>)
    ensures forall e :: e in Changed(profiles, vectors) <==> e in profiles && Stale(e, vectors)
    ensures (forall e :: e in profiles ==> !Stale(e, vectors)) ==> Changed(profiles, vectors) == []
  {
    if profiles != [] {
      ChangedMeaning(profiles[1..], vectors);
      assert profiles == [profiles[0]] + profiles[1..];
    }
  }

  lemma {:induction false} ChangedOnePerUser(profiles: seq<Entry>, vectors: map<string, Stored>)
    requires OnePerUser(profiles)
    ensures OnePerUser(Changed(profiles, vectors))
  {
    if profiles != [] {
      var rest := Changed(profiles[1..], vectors);
      ChangedOnePerUser(profiles[1..], vectors);
      ChangedMeaning(profiles[1..], vectors);
      forall i | 0 <= i < |rest| ensures rest[i].user != profiles[0].user {
        assert rest[i] in profiles[1..];
      }
    }
  }

  ghost predicate NotIn(user: string, entries: seq<Entry>) {
    forall e :: e in entries ==> e.user != user
  }

  /** The row of `user`, or its absence, is the same in both tables. */
  ghost predicate Same(user: string, a: map<string, Stored>, b: map<string, Stored>) {
    (user in a <==> user in b) && (user in a ==> a[user] == b[user])
  }

  ghost predicate Holds(table: map<string, Stored>, user: string, row: Stored) {
    user in table && table[user] == row
  }

  lemma {:induction false} StoreAllMeaning(changed: seq<Entry>, vectors: map<string, Stored>, embed: Embed)
    requires OnePerUser(changed)
    ensures var after := StoreAll(changed, vectors, embed);
      && (forall e :: e in changed ==> Holds(after, e.user, RowFor(e.profile, embed)))
      && (forall u :: NotIn(u, changed) ==> Same(u, vectors, after))
  {
    if changed != [] {
      var first, rest := changed[0], changed[1..];
      var next := vectors[first.user := RowFor(first.profile, embed)];
      var after := StoreAll(rest, next, embed);
      StoreAllMeaning(rest, next, embed);
      assert changed == [first] + rest;
      assert NotIn(first.user, rest);
      assert Same(first.user, next, after);
      forall u | NotIn(u, changed) ensures Same(u, vectors, after) {
        assert first in changed;
        assert NotIn(u, rest);
        assert Same(u, next, after);
      }
    }
  }

  /** The stored vector is that of a text that tells the profile. */
  ghost predicate Embeds(table: map<string, Stored>, e: Entry, embed: Embed) {
    e.user in table && exists text, l :: Tells(text, e.profile, l) && table[e.user].embedding == embed(text)
  }

  lemma RowEmbeds(table: map<string, Stored>, e: Entry, embed: Embed)
    requires Holds(table, e.user, RowFor(e.profile, embed))
    ensures Embeds(table, e, embed)
  {
    TextTells(e.profile);
    var l :| Tells(Text(e.profile), e.profile, l);
    assert Tells(Text(e.profile), e.profile, l) && table[e.user].embedding == embed(Text(e.profile));
  }

  /** A run stores changed profiles afresh, from texts that tell them, and leaves every other row alone. */
  lemma RunEffect(profiles: seq<Entry>, vectors: map<string, Stored>, embed: Embed)
    requires OnePerUser(profiles)
    ensures var after := EmbedProfiles(profiles, vectors, embed);
      && (forall e :: e in profiles && Stale(e, vectors) ==>
          Holds(after, e.user, RowFor(e.profile, embed)) && Embeds(after, e, embed))
      && (forall e :: e in profiles && !Stale(e, vectors) ==> Holds(after, e.user, vectors[e.user]))
      && (forall u :: NotIn(u, profiles) ==> Same(u, vectors, after))
  {
    var changed := Changed(profiles, vectors);
    var after := EmbedProfiles(profiles, vectors, embed);
    ChangedMeaning(profiles, vectors);
    ChangedOnePerUser(profiles, vectors);
    StoreAllMeaning(changed, vectors, embed);
    hide Tells, Text, Embeds;
    forall e | e in profiles && Stale(e, vectors) ensures Holds(after, e.user, RowFor(e.profile, embed)) && Embeds(after, e, embed) {
      RowEmbeds(after, e, embed);
    }
    forall e | e in profiles && !Stale(e, vectors) ensures Holds(after, e.user, vectors[e.user]) {
      UserIsKey(profiles, e);
      assert NotIn(e.user, changed);
      assert Same(e.user, vectors, after);
    }
    forall u | NotIn(u, profiles) ensures Same(u, vectors, after) {
      assert NotIn(u, changed);
    }
  }

  lemma UserIsKey(profiles: seq<Entry>, e: Entry)
    requires OnePerUser(profiles) && e in profiles
    ensures forall x :: x in profiles && x.user == e.user ==> x == e
  {
  }

  class VectorTable {
    var rows: map<string, Stored>

    /** `embed_profiles`: embed what changed, then upsert it; returns how many profiles that was. */
    method Refresh(profiles: seq<Entry>, embed: Embed) returns (count: nat)
      modifies this
      ensures rows == EmbedProfiles(profiles, old(rows), embed)
      ensures count == |Changed(profiles, old(rows))|
      ensures OnePerUser(profiles) ==>
        forall e :: e in profiles ==> if Stale(e, old(rows)) then Embeds(rows, e, embed) else Holds(rows, e.user, old(rows)[e.user])
    {
      ghost var before := rows;
      if OnePerUser(profiles) {
        RunEffect(profiles, rows, embed);
      }
      hide Embeds, OnePerUser, Text, Hash;
      var changed := Changed(profiles, rows);
      if changed == [] {
        return 0;
      }
      var vectors: seq<Vector> := seq(|changed|, i requires 0 <= i < |changed| => embed(Text(changed[i].profile)));
      for i := 0 to |changed|
        invariant StoreAll(changed[i..], rows, embed) == StoreAll(changed, before, embed)
      {
        var e := changed[i];
        assert changed[i..][0] == e && changed[i..][1..] == changed[i + 1..];
        rows := rows[e.user := Stored(vectors[i], Hash(e.profile))];
      }
      return |changed|;
    }
  }

  /** An immediate second run embeds nothing and changes nothing. */
  lemma SecondRunDoesNothing(profiles: seq<Entry>, vectors: map<string, Stored>, embed: Embed)
    requires OnePerUser(profiles)
    ensures var after := EmbedProfiles(profiles, vectors, embed);
      Changed(profiles, after) == [] && EmbedProfiles(profiles, after, embed) == after
  {
    var after := EmbedProfiles(profiles, vectors, embed);
    RunEffect(profiles, vectors, embed);
    ChangedMeaning(profiles, after);
    forall e | e in profiles ensures !Stale(e, after) {
      if Stale(e, vectors) {
        assert Holds(after, e.user, RowFor(e.profile, embed));
      } else {
        assert Holds(after, e.user, vectors[e.user]);
      }
    }
  }

  /** Rows stay computed from admitted profiles, so the next run may rely on it again. */
  lemma RunKeepsComputed(profiles: seq<Entry>, vectors: map<string, Stored>, embed: Embed, admitted: Admitted)
    requires OnePerUser(profiles) && AllOver(profiles, admitted) && Computed(vectors, embed, admitted)
    ensures Computed(EmbedProfiles(profiles, vectors, embed), embed, admitted)
  {
    var after := EmbedProfiles(profiles, vectors, embed);
    RunEffect(profiles, vectors, embed);
    forall u | u in after ensures exists p :: Over(p, admitted) && after[u] == RowFor(p, embed) {
      if NotIn(u, profiles) {
        assert Same(u, vectors, after);
      } else {
        var e :| e in profiles && e.user == u;
        if Stale(e, vectors) {
          assert Holds(after, e.user, RowFor(e.profile, embed));
          assert Over(e.profile, admitted);
        } else {
          assert Holds(after, e.user, vectors[e.user]);
        }
      }
    }
  }

  /** Over this vocabulary, profiles with equal keys have equal texts. */
  ghost predicate KeyTellsText(admitted: Admitted) {
    forall p, q :: Over(p, admitted) && Over(q, admitted) && Key(p) == Key(q) ==> Text(p) == Text(q)
  }

  lemma CleanKeyTellsText(admitted: Admitted)
    requires forall e :: e in admitted ==> Clean(e)
    ensures KeyTellsText(admitted)
  {
    forall p, q | Over(p, admitted) && Over(q, admitted) && Key(p) == Key(q) ensures Text(p) == Text(q) {
      KeyDecodes(p, q);
    }
  }

  /** Where the key tells the text, a run leaves every stored row equal to one computed from scratch. */
  lemma RunLeavesCurrent(profiles: seq<Entry>, vectors: map<string, Stored>, embed: Embed, admitted: Admitted)
    requires KeyTellsText(admitted)
    requires OnePerUser(profiles) && AllOver(profiles, admitted) && Computed(vectors, embed, admitted)
    ensures AllUpToDate(profiles, EmbedProfiles(profiles, vectors, embed), embed)
    ensures forall e :: e in profiles ==> Holds(EmbedProfiles(profiles, vectors, embed), e.user, RowFor(e.profile, embed))
  {
    var after := EmbedProfiles(profiles, vectors, embed);
    RunEffect(profiles, vectors, embed);
    forall e | e in profiles ensures Holds(after, e.user, RowFor(e.profile, embed)) {
      if !Stale(e, vectors) {
        assert Holds(after, e.user, vectors[e.user]);
        var p :| Over(p, admitted) && vectors[e.user] == RowFor(p, embed);
        assert Over(e.profile, admitted) && Key(p) == Key(e.profile);
      } else {
        assert Holds(after, e.user, RowFor(e.profile, embed));
      }
    }
  }

  lemma {:induction false} RunsKeepComputed(history: seq<seq<Entry>>, embed: Embed, admitted: Admitted)
    requires Admits(admitted, history)
    ensures Computed(AfterRuns(history, embed), embed, admitted)
  {
    if history != [] {
      var n := |history| - 1;
      assert history[n] in history;
      RunsKeepComputed(history[..n], embed, admitted);
      RunKeepsComputed(history[n], AfterRuns(history[..n], embed), embed, admitted);
    }
  }

  /** Where the key tells the text, every run ever made leaves every row equal to one computed from scratch. */
  lemma RunsLeaveCurrent(history: seq<seq<Entry>>, embed: Embed, admitted: Admitted)
    requires KeyTellsText(admitted) && history != [] && Admits(admitted, history)
    ensures var profiles, after := history[|history| - 1], AfterRuns(history, embed);
      && AllUpToDate(profiles, after, embed)
      && forall e :: e in profiles ==> Holds(after, e.user, RowFor(e.profile, embed)) && Embeds(after, e, embed)
  {
    var n := |history| - 1;
    assert history[n] in history;
    RunsKeepComputed(history[..n], embed, admitted);
    RunLeavesCurrent(history[n], AfterRuns(history[..n], embed), embed, admitted);
    forall e | e in history[n] ensures Embeds(AfterRuns(history, embed), e, embed) {
      RowEmbeds(AfterRuns(history, embed), e, embed);
    }
  }

  /** Runs, tables and providers aside: the gate is right exactly when the key tells the text. */
  lemma UpToDateIffKeyTellsText(admitted: Admitted)
    ensures AlwaysUpToDate(admitted) <==> KeyTellsText(admitted)
  {
    if KeyTellsText(admitted) {
      forall embed: Embed, history: seq<seq<Entry>> | history != [] && Admits(admitted, history)
        ensures AllUpToDate(history[|history| - 1], AfterRuns(history, embed), embed)
      {
        RunsLeaveCurrent(history, embed, admitted);
      }
    } else {
      var p, q :| Over(p, admitted) && Over(q, admitted) && Key(p) == Key(q) && Text(p) != Text(q);
      CollisionGoesStale(p, q, admitted);
    }
  }

  // When the key does not decode.

  /** A provider that tells `text` from every other text. */
  function Telling(text: string): Embed {
    (t: string) => if t == text then [1.0] else []
  }

  /** The user had profile `p` at the first run and has `q` at the second. */
  function TwoRuns(p: Profile, q: Profile): seq<seq<Entry>> {
    [[Entry("u", p)], [Entry("u", q)]]
  }

  /** The second run skips the changed profile: the row computed for `p` stays. */
  lemma SecondRunSkips(p: Profile, q: Profile, embed: Embed)
    requires Key(p) == Key(q)
    ensures AfterRuns(TwoRuns(p, q), embed) == map["u" := RowFor(p, embed)]
  {
    var first, second := [Entry("u", p)], [Entry("u", q)];
    var row := map["u" := RowFor(p, embed)];
    assert TwoRuns(p, q)[..1] == [first];
    var once: seq<seq<Entry>> := [first];
    assert once[..0] == [];
    assert |first[1..]| == 0;
    assert Changed(first, map[]) == [first[0]] + Changed(first[1..], map[]) == first;
    assert AfterRuns(once, embed) == StoreAll(first, map[], embed) == StoreAll(first[1..], row, embed) == row;
    assert Changed(second, row) == [];
  }

  /** Two profiles that differ in text but not in key: the run that should notice the change does not. */
  lemma CollisionGoesStale(p: Profile, q: Profile, admitted: Admitted)
    requires Over(p, admitted) && Over(q, admitted) && Key(p) == Key(q) && Text(p) != Text(q)
    ensures !AlwaysUpToDate(admitted)
  {
    hide AfterRuns, Key, Text;
    var embed, history := Telling(Text(p)), TwoRuns(p, q);
    SecondRunSkips(p, q, embed);
    assert Admits(admitted, history);
    assert Entry("u", q) in history[1] && !UpToDate(Entry("u", q), AfterRuns(history, embed), embed);
  }

  /** An entry with a bar collides with its two halves. */
  lemma BarCollides(x: string, y: string)
    ensures var p, q := Profile([x + "|" + y], [], None), Profile([x, y], [], None);
      Key(p) == Key(q) && Text(p) != Text(q)
  {
    var p, q := Profile([x + "|" + y], [], None), Profile([x, y], [], None);
    assert Join("|", q.portfolio) == x + "|" + y;
    assert |Join(", ", q.portfolio)| == |Join(", ", p.portfolio)| + 1;
    assert |Text(q)| == |Text(p)| + 1;
  }

  /** Two empty entries in one list collide with two empty entries in the other. */
  lemma EmptyEntriesCollide()
    ensures var p, q := Profile(["", ""], [], None), Profile([], ["", ""], None);
      Key(p) == Key(q) && Text(p) != Text(q)
  {
    var p, q := Profile(["", ""], [], None), Profile([], ["", ""], None);
    assert Join("|", ["", ""]) == "|" && Join(", ", ["", ""]) == ", ";
    assert Key(p) == "|||||" == Key(q);
    var n := |"Investor profile. Portfolio holdings: "|;
    assert Text(p)[n] == ',' && Text(q)[n] == '(';
  }

  /** An empty entry is admitted, or an entry with a bar along with its two halves. */
  ghost predicate Collides(admitted: Admitted) {
    "" in admitted || exists x, y :: x in admitted && y in admitted && x + "|" + y in admitted
  }

  lemma CollidingIsNotUpToDate(admitted: Admitted)
    requires Collides(admitted)
    ensures !AlwaysUpToDate(admitted)
  {
    if "" in admitted {
      EmptyEntriesCollide();
      CollisionGoesStale(Profile(["", ""], [], None), Profile([], ["", ""], None), admitted);
    } else {
      var x, y :| x in admitted && y in admitted && x + "|" + y in admitted;
      BarCollides(x, y);
      CollisionGoesStale(Profile([x + "|" + y], [], None), Profile([x, y], [], None), admitted);
    }
  }

  /**
   Exactly when the gate is right, for every vocabulary that admits a colliding set of entries as soon
   as it admits an unclean one: when entries are non-empty and free of bars.
   */
  lemma UpToDateIffClean(admitted: Admitted)
    requires (exists e :: e in admitted && !Clean(e)) ==> Collides(admitted)
    ensures AlwaysUpToDate(admitted) <==> forall e :: e in admitted ==> Clean(e)
  {
    if exists e :: e in admitted && !Clean(e) {
      CollidingIsNotUpToDate(admitted);
    } else {
      CleanKeyTellsText(admitted);
      UpToDateIffKeyTellsText(admitted);
    }
  }

  // Where entries come from: the onboarding sync strips strings and drops blank ones.

  /** The characters that Python's `str.strip` removes. */
  predicate IsSpace(c: char) {
    var n := c as int;
    || 0x09 <= n <= 0x0D || 0x1C <= n <= 0x20 || n == 0x85 || n == 0xA0 || n == 0x1680
    || 0x2000 <= n <= 0x200A || n == 0x2028 || n == 0x2029 || n == 0x202F || n == 0x205F || n == 0x3000
  }

  function Strip(s: string): string {
    if s == "" then ""
    else if IsSpace(s[0]) then Strip(s[1..])
    else if IsSpace(s[|s| - 1]) then Strip(s[..|s| - 1])
    else s
  }

  function StrList(values: seq<string>): seq<string> {
    if values == [] then [] else
    (if Strip(values[0]) != "" then [Strip(values[0])] else []) + StrList(values[1..])
  }

  lemma {:induction false} StripKeepsBars(s: string)
    ensures '|' in Strip(s) <==> '|' in s
  {
    if s != "" {
      if IsSpace(s[0]) {
        assert s == [s[0]] + s[1..];
        StripKeepsBars(s[1..]);
      } else if IsSpace(s[|s| - 1]) {
        assert s == s[..|s| - 1] + [s[|s| - 1]];
        StripKeepsBars(s[..|s| - 1]);
      }
    }
  }

  /** Everything outside of `s[i..j]` is white space, and neither end of it is. */
  ghost predicate Trimmed(s: string, i: nat, j: nat) {
    && i <= j <= |s| && (forall k :: 0 <= k < i || j <= k < |s| ==> IsSpace(s[k]))
    && (i < j ==> !IsSpace(s[i]) && !IsSpace(s[j - 1]))
  }

  lemma TrimmedTail(s: string, i: nat, j: nat)
    requires s != "" && IsSpace(s[0]) && Trimmed(s[1..], i, j)
    ensures Trimmed(s, i + 1, j + 1) && s[1..][i..j] == s[i + 1..j + 1]
  {
    hide IsSpace;
    var t := s[1..];
    forall k | 0 <= k < i + 1 || j + 1 <= k < |s| ensures IsSpace(s[k]) {
      if k > 0 {
        assert s[k] == t[k - 1] && IsSpace(t[k - 1]);
      }
    }
  }

  lemma TrimmedInit(s: string, i: nat, j: nat)
    requires s != "" && IsSpace(s[|s| - 1]) && Trimmed(s[..|s| - 1], i, j)
    ensures Trimmed(s, i, j) && s[..|s| - 1][i..j] == s[i..j]
  {
    hide IsSpace;
    var t := s[..|s| - 1];
    forall k | 0 <= k < i || j <= k < |s| ensures IsSpace(s[k]) {
      if k < |t| {
        assert s[k] == t[k] && IsSpace(t[k]);
      }
    }
  }

  /** Stripping removes white space at both ends, all of it, and nothing else. */
  lemma {:induction false} StripMeaning(s: string) returns (i: nat, j: nat)
    ensures Trimmed(s, i, j) && Strip(s) == s[i..j]
  {
    hide IsSpace;
    i, j := 0, |s|;
    if s != "" {
      if IsSpace(s[0]) {
        i, j := StripMeaning(s[1..]);
        TrimmedTail(s, i, j);
        i, j := i + 1, j + 1;
      } else if IsSpace(s[|s| - 1]) {
        i, j := StripMeaning(s[..|s| - 1]);
        TrimmedInit(s, i, j);
      }
    }
  }

  /** A list is stripped value by value, in order, and blank values are dropped. */
  lemma {:induction false} StrListMeaning(a: seq<string>, b: seq<string>, v: string)
    ensures StrList(a + b) == StrList(a) + StrList(b)
    ensures StrList([v]) == if Strip(v) == "" then [] else [Strip(v)]
  {
    if a == [] {
      assert a + b == b;
    } else {
      assert (a + b)[1..] == a[1..] + b;
      StrListMeaning(a[1..], b, v);
    }
  }

  /** Synced entries are never empty; they are clean exactly when no onboarding value has a bar. */
  lemma {:induction false} SyncedEntriesClean(values: seq<string>)
    ensures "" !in StrList(values)
    ensures AllClean(StrList(values)) <==> forall v :: v in values ==> '|' !in v
  {
    if values != [] {
      var first := Strip(values[0]);
      StripKeepsBars(values[0]);
      SyncedEntriesClean(values[1..]);
      assert values == [values[0]] + values[1..];
      assert first != "" ==> first in StrList(values);
      assert forall e :: e in StrList(values[1..]) ==> e in StrList(values);
    }
  }

  /** The entries that syncing values from `onboarding` can produce. */
  ghost function Vocabulary(onboarding: Admitted): Admitted {
    iset v | v in onboarding && Strip(v) != "" :: Strip(v)
  }

  lemma {:induction false} SyncedInVocabulary(values: seq<string>, onboarding: Admitted)
    requires forall v :: v in values ==> v in onboarding
    ensures forall e :: e in StrList(values) ==> e in Vocabulary(onboarding)
  {
    if values != [] {
      assert values[0] in values;
      SyncedInVocabulary(values[1..], onboarding);
    }
  }

  /** The vocabulary is exactly what synced lists consist of. */
  lemma VocabularyMeaning(e: string, onboarding: Admitted)
    ensures e in Vocabulary(onboarding)
      <==> exists values :: (forall v :: v in values ==> v in onboarding) && e in StrList(values)
  {
    if e in Vocabulary(onboarding) {
      var v :| v in onboarding && Strip(v) == e && e != "";
      assert StrList([v]) == [e];
      assert forall x :: x in [v] ==> x in onboarding;
    }
    forall values | (forall v :: v in values ==> v in onboarding) && e in StrList(values)
      ensures e in Vocabulary(onboarding)
    {
      SyncedInVocabulary(values, onboarding);
    }
  }

  lemma SyncedKeyTellsText(onboarding: Admitted)
    requires forall v :: v in onboarding ==> '|' !in v
    ensures KeyTellsText(Vocabulary(onboarding))
  {
    forall e | e in Vocabulary(onboarding) ensures Clean(e) {
      var v :| v in onboarding && Strip(v) == e && e != "";
      assert StrList([v]) == [e];
      SyncedEntriesClean([v]);
      assert e in StrList([v]);
    }
    CleanKeyTellsText(Vocabulary(onboarding));
  }

  /** As long as no onboarding value has a bar, every run leaves every vector of synced profiles current. */
  lemma SyncedUpToDate(onboarding: Admitted)
    requires forall v :: v in onboarding ==> '|' !in v
    ensures AlwaysUpToDate(Vocabulary(onboarding))
  {
    SyncedKeyTellsText(onboarding);
    UpToDateIffKeyTellsText(Vocabulary(onboarding));
  }

  ghost predicate MadeOf(s: string, allowed: iset<char>) {
    forall c :: c in s ==> c in allowed
  }

  /** Free text over these characters. */
  ghost function TextOf(allowed: iset<char>): Admitted {
    iset s: string | MadeOf(s, allowed)
  }

  /**
   What the onboarding form decides: with free text over a set of characters, vectors of synced
   profiles stay current through all runs if and only if the bar is not one of these characters.
   */
  lemma SyncedUpToDateIffNoBar(allowed: iset<char>)
    ensures AlwaysUpToDate(Vocabulary(TextOf(allowed))) <==> '|' !in allowed
  {
    var onboarding := TextOf(allowed);
    if '|' in allowed {
      assert MadeOf("|", allowed) && Strip("|") == "|";
      assert MadeOf("|||", allowed) && Strip("|||") == "|||";
      assert "|" + "|" + "|" == "|||";
      CollidingIsNotUpToDate(Vocabulary(onboarding));
    } else {
      SyncedUpToDate(onboarding);
    }
  }

  /** What the onboarding form knows about a user. */
  datatype Onboarded = Onboarded(
    watchTickers: seq<string>, sectors: seq<string>, assetClasses: seq<string>, regions: seq<string>,
    investorType: Option<string>, riskTolerance: Option<string>, primaryObjective: Option<string>,
    timeHorizon: Option<string>)

  /** A missing or empty answer contributes nothing to the focus. */
  function Answer(answer: Option<string>, suffix: string): seq<string> {
    if answer.Some? && answer.value != "" then [answer.value + suffix] else []
  }

  function FocusParts(row: Onboarded): seq<string> {
    Answer(row.investorType, "") + Answer(row.riskTolerance, " risk") + Answer(row.primaryObjective, "")
    + Answer(row.timeHorizon, "") + StrList(row.regions)
  }

  function MapToProfile(row: Onboarded): Profile {
    var focus := Join("; ", FocusParts(row));
    Profile(StrList(row.watchTickers), StrList(row.sectors) + StrList(row.assetClasses), if focus == "" then None else Some(focus))
  }

  /** Every list of the form holds values from `onboarding` only. */
  ghost predicate FilledFrom(row: Onboarded, onboarding: Admitted) {
    && (forall v :: v in row.watchTickers ==> v in onboarding)
    && (forall v :: v in row.sectors ==> v in onboarding) && (forall v :: v in row.assetClasses ==> v in onboarding)
  }

  lemma {:induction false} ListedValues(values: seq<string>, e: string)
    ensures e in StrList(values) <==> e != "" && exists v :: v in values && Strip(v) == e
  {
    if values != [] {
      ListedValues(values[1..], e);
      assert values == [values[0]] + values[1..];
      assert values[0] in values;
    }
  }

  /** Holdings are the watched tickers, sectors the sectors and asset classes, and nobody is given a blank entry. */
  lemma MappedEntries(row: Onboarded, e: string)
    ensures e in MapToProfile(row).portfolio <==> e != "" && exists v :: v in row.watchTickers && Strip(v) == e
    ensures e in MapToProfile(row).sectors
      <==> e != "" && exists v :: (v in row.sectors || v in row.assetClasses) && Strip(v) == e
  {
    ListedValues(row.watchTickers, e);
    ListedValues(row.sectors, e);
    ListedValues(row.assetClasses, e);
  }

  lemma Unsuffixed(answer: Option<string>)
    ensures Answer(answer, "") == if answer == None || answer == Some("") then [] else [answer.value]
  {
    if answer.Some? {
      assert answer.value + "" == answer.value;
    }
  }

  lemma JoinSome(separator: string, parts: seq<string>)
    requires parts != [] && "" !in parts
    ensures Join(separator, parts) != ""
  {
    assert parts[0] in parts;
  }

  /**
   The focus says, in this order and separated by semicolons, what was answered: the type of investor, the
   risk tolerated, the objective, the horizon, and the regions; without any answer there is none.
   */
  lemma MappedFocus(row: Onboarded) returns (parts: seq<string>, at: seq<nat>)
    ensures parts
      == (if row.investorType == None || row.investorType == Some("") then [] else [row.investorType.value])
       + (if row.riskTolerance == None || row.riskTolerance == Some("") then [] else [row.riskTolerance.value + " risk"])
       + (if row.primaryObjective == None || row.primaryObjective == Some("") then [] else [row.primaryObjective.value])
       + (if row.timeHorizon == None || row.timeHorizon == Some("") then [] else [row.timeHorizon.value])
       + StrList(row.regions)
    ensures match MapToProfile(row).focus
      case None => parts == []
      case Some(focus) => Occur(focus, "; ", parts, at, 0, |focus|)
  {
    parts := FocusParts(row);
    at := Starts("; ", parts, 0);
    Unsuffixed(row.investorType);
    Unsuffixed(row.primaryObjective);
    Unsuffixed(row.timeHorizon);
    SyncedEntriesClean(row.regions);
    if parts != [] {
      JoinSome("; ", parts);
      var focus := Join("; ", parts);
      assert PartAt(focus, focus, 0, |focus|);
      JoinOccurs(focus, "; ", parts, 0, |focus|);
    }
    hide Occur, Join, StrList;
  }

  ghost predicate MappedFrom(onboarding: Admitted, profiles: seq<Entry>) {
    forall x :: x in profiles ==> exists row :: FilledFrom(row, onboarding) && x.profile == MapToProfile(row)
  }

  lemma MappedOver(row: Onboarded, onboarding: Admitted)
    requires FilledFrom(row, onboarding)
    ensures Over(MapToProfile(row), Vocabulary(onboarding))
  {
    SyncedInVocabulary(row.watchTickers, onboarding);
    SyncedInVocabulary(row.sectors, onboarding);
    SyncedInVocabulary(row.assetClasses, onboarding);
  }

  /**
   From the form to the vector: as long as no value on any form has a bar, every run leaves every synced
   user with the vector of a text that tells that user's current profile.
   */
  lemma SyncedUsersCurrent(onboarding: Admitted, history: seq<seq<Entry>>, embed: Embed)
    requires forall v :: v in onboarding ==> '|' !in v
    requires history != []
    requires forall profiles :: profiles in history ==> OnePerUser(profiles) && MappedFrom(onboarding, profiles)
    ensures forall e :: e in history[|history| - 1] ==> Embeds(AfterRuns(history, embed), e, embed)
  {
    var admitted := Vocabulary(onboarding);
    forall profiles, x | profiles in history && x in profiles ensures Over(x.profile, admitted) {
      var row :| FilledFrom(row, onboarding) && x.profile == MapToProfile(row);
      MappedOver(row, onboarding);
    }
    SyncedKeyTellsText(onboarding);
    RunsLeaveCurrent(history, embed, admitted);
  }
}
