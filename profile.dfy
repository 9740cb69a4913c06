/**
 The profile screen's "Top 3 Artists" panel and its statistics: every
 vocalist credit (cut at its first " - ") and every truthy producer of every
 record in the log is tallied into one dictionary, whose entries are then
 stably sorted by descending count and cut to three.
 */
module Profile {

  import opened Wrappers
  import opened Records
  import opened Sequences
  import opened ObjectKeys

  // ---------------------------------------------------------------------
  // Name normalisation: `artist.split(" - ")[0]`
  // ---------------------------------------------------------------------

  /** The separator between a performer's name and their role. */
  const Separator: string := " - "

  predicate SeparatorAt(s: string, i: nat) {
    i + |Separator| <= |s| && s[i..i + |Separator|] == Separator
  }

  /** The position of the first separator at or after `from`, or `|s|`. */
  function FindSeparator(s: string, from: nat): (r: nat)
    requires from <= |s|
    ensures from <= r <= |s|
    ensures forall j :: from <= j < r ==> !SeparatorAt(s, j)
    ensures r < |s| ==> SeparatorAt(s, r)
    decreases |s| - from
  {
    if from + |Separator| > |s| then |s|
    else if SeparatorAt(s, from) then from
    else FindSeparator(s, from + 1)
  }

  /**
   The first piece of `artist.split(" - ")`: the text before the first
   separator, or the whole credit when it has none.
   */
  function CleanArtist(artist: string): (name: string)
    ensures name <= artist
    ensures forall j :: 0 <= j < |name| ==> !SeparatorAt(artist, j)
    ensures name == artist || SeparatorAt(artist, |name|)
  {
    artist[..FindSeparator(artist, 0)]
  }

  /** A credit is left whole exactly when it holds no separator. */
  lemma CleanArtistWhole(artist: string)
    ensures CleanArtist(artist) == artist <==> forall j: nat :: !SeparatorAt(artist, j)
  {
    if CleanArtist(artist) == artist {
      forall j: nat ensures !SeparatorAt(artist, j) {
        if j < |artist| {
          assert !SeparatorAt(artist, j);
        }
      }
    }
  }

  /** A credit is cut at its first separator. */
  lemma CleanArtistAt(artist: string, k: nat)
    requires SeparatorAt(artist, k)
    requires forall j :: 0 <= j < k ==> !SeparatorAt(artist, j)
    ensures CleanArtist(artist) == artist[..k]
  {
  }

  /** A credit with a role, written as in the sample's instrumentalist list, and a name without a role. */
  lemma CleanArtistExamples()
    ensures CleanArtist("Thundercat - Bass") == "Thundercat"
    ensures CleanArtist("SZA") == "SZA"
  {
    var credit := "Thundercat - Bass";
    assert SeparatorAt(credit, 10);
    forall j | 0 <= j < 10 ensures !SeparatorAt(credit, j) {
      assert credit[j..j + 3][0] == credit[j] != ' ';
    }
    CleanArtistAt(credit, 10);
    forall j: nat ensures !SeparatorAt("SZA", j) {
      assert j + 3 > 3 || "SZA"[j..j + 3] == "SZA";
    }
    CleanArtistWhole("SZA");
  }

  // ---------------------------------------------------------------------
  // What the records contribute to the tally
  // ---------------------------------------------------------------------

  /** `CleanArtist` of each credit, in list order. */
  function CleanNames(credits: seq<string>): (names: seq<string>)
    ensures |names| == |credits|
    ensures forall i :: 0 <= i < |credits| ==> names[i] == CleanArtist(credits[i])
  {
    if credits == [] then []
    else CleanNames(credits[..|credits| - 1]) + [CleanArtist(credits[|credits| - 1])]
  }

  /** The cleaned names of a prefix of a list grow credit by credit. */
  lemma CleanNamesStep(seen: seq<string>, credits: seq<string>, j: nat)
    requires j < |credits|
    ensures seen + CleanNames(credits[..j + 1]) == (seen + CleanNames(credits[..j])) + [CleanArtist(credits[j])]
  {
    assert credits[..j + 1][..j] == credits[..j];
  }

  /** The whole vocalist list of a record, as the loop visits it. */
  lemma VocalistNamesAll(seen: seq<string>, f: UploadedFile)
    requires f.metadata.Some? && f.metadata.value.vocalists.Some?
    ensures var credits := f.metadata.value.vocalists.value;
      seen + CleanNames(credits[..|credits|]) == seen + VocalistNames(f)
  {
    var credits := f.metadata.value.vocalists.value;
    assert credits[..|credits|] == credits;
  }

  /** A record's names follow those already seen. */
  lemma RecordNamesAppend(seen: seq<string>, f: UploadedFile)
    ensures seen + RecordNames(f) == (seen + VocalistNames(f)) + ProducerNames(f)
  {
  }

  /** The names a record's vocalist list adds; a record without the list adds none. */
  function VocalistNames(f: UploadedFile): seq<string> {
    if f.metadata.Some? && f.metadata.value.vocalists.Some?
    then CleanNames(f.metadata.value.vocalists.value)
    else []
  }

  /** The producer a record adds, taken whole, when it is truthy. */
  function ProducerNames(f: UploadedFile): seq<string> {
    if f.metadata.Some? && Truthy(f.metadata.value.producer)
    then [f.metadata.value.producer.value]
    else []
  }

  /** Every name the tally counts, in the order the loops visit them. */
  function Contributions(files: seq<UploadedFile>): seq<string> {
    if files == [] then []
    else
      var last := files[|files| - 1];
      Contributions(files[..|files| - 1]) + RecordNames(last)
  }

  /** The names of a prefix of the log grow record by record. */
  lemma ContributionsStep(files: seq<UploadedFile>, i: nat)
    requires i < |files|
    ensures Contributions(files[..i + 1])
         == Contributions(files[..i]) + RecordNames(files[i])
  {
    assert files[..i + 1][..i] == files[..i];
  }

  /** The reference tally: each contributed name with its number of occurrences. */
  function Tally(names: seq<string>): map<string, nat> {
    map n | n in names :: multiset(names)[n]
  }

  /** One increment of the dictionary, `count[n] = (count[n] || 0) + 1`. */
  lemma TallyStep(names: seq<string>, n: string)
    ensures Tally(names + [n])
         == Tally(names)[n := (if n in Tally(names) then Tally(names)[n] else 0) + 1]
    ensures Distinct(names + [n])
         == if n in Tally(names) then Distinct(names) else Distinct(names) + [n]
  {
    var s := names + [n];
    assert s[..|s| - 1] == names;
    assert multiset(s) == multiset(names) + multiset{n};
    assert forall x :: x in s <==> x in names || x == n;
    var lhs := Tally(s);
    var rhs := Tally(names)[n := (if n in Tally(names) then Tally(names)[n] else 0) + 1];
    assert lhs.Keys == rhs.Keys;
    assert forall x :: x in lhs ==> lhs[x] == rhs[x];
  }

  /**
   `count[name] = (count[name] || 0) + 1`: one increment of the dictionary,
   which creates the key when it is new. `created` lists the dictionary's keys
   in creation order; `seen` is every name counted so far.
   */
  method Bump(counts: map<string, nat>, created: seq<string>, name: string, ghost seen: seq<string>)
    returns (counts': map<string, nat>, created': seq<string>)
    requires counts == Tally(seen) && created == Distinct(seen)
    ensures counts' == Tally(seen + [name]) && created' == Distinct(seen + [name])
  {
    TallyStep(seen, name);
    created' := if name in counts then created else created + [name];
    counts' := counts[name := (if name in counts then counts[name] else 0) + 1];
  }

  /** The names one record adds, vocalists first. */
  function RecordNames(f: UploadedFile): seq<string> {
    VocalistNames(f) + ProducerNames(f)
  }

  /**
   The body of the per-record callback: each vocalist credit bumps its
   cleaned name, then a truthy producer bumps itself.
   */
  method CountRecord(counts: map<string, nat>, created: seq<string>, f: UploadedFile, ghost seen: seq<string>)
    returns (counts': map<string, nat>, created': seq<string>)
    requires counts == Tally(seen) && created == Distinct(seen)
    ensures counts' == Tally(seen + RecordNames(f)) && created' == Distinct(seen + RecordNames(f))
  {
    counts', created' := counts, created;
    if f.metadata.Some? && f.metadata.value.vocalists.Some? {
      var vocalists := f.metadata.value.vocalists.value;
      assert seen + CleanNames(vocalists[..0]) == seen;
      for j := 0 to |vocalists|
        invariant counts' == Tally(seen + CleanNames(vocalists[..j]))
        invariant created' == Distinct(seen + CleanNames(vocalists[..j]))
      {
        var name := CleanArtist(vocalists[j]);
        CleanNamesStep(seen, vocalists, j);
        counts', created' := Bump(counts', created', name, seen + CleanNames(vocalists[..j]));
      }
      VocalistNamesAll(seen, f);
    } else {
      assert seen + VocalistNames(f) == seen;
    }
    RecordNamesAppend(seen, f);
    if f.metadata.Some? && Truthy(f.metadata.value.producer) {
      var name := f.metadata.value.producer.value;
      counts', created' := Bump(counts', created', name, seen + VocalistNames(f));
    } else {
      assert (seen + VocalistNames(f)) + ProducerNames(f) == seen + VocalistNames(f);
    }
  }

  /**
   The tally loop of `getTopArtists`: every record's names bump the
   dictionary in turn. `created` is the order in which the dictionary's keys
   were first created.
   */
  method CountArtists(files: seq<UploadedFile>) returns (counts: map<string, nat>, created: seq<string>)
    ensures counts == Tally(Contributions(files))
    ensures created == Distinct(Contributions(files))
  {
    counts, created := map[], [];
    for i := 0 to |files|
      invariant counts == Tally(Contributions(files[..i]))
      invariant created == Distinct(Contributions(files[..i]))
    {
      ContributionsStep(files, i);
      counts, created := CountRecord(counts, created, files[i], Contributions(files[..i]));
    }
    assert files[..|files|] == files;
  }

  // ---------------------------------------------------------------------
  // Ranking: `Object.entries(...).sort((a, b) => b - a).slice(0, 3)`
  // ---------------------------------------------------------------------

  /** One row of the ranking, `{ artist, count }`. */
  datatype ArtistCount = ArtistCount(artist: string, count: nat)

  function Min(a: nat, b: nat): nat {
    if a <= b then a else b
  }

  /** The rows of a dictionary, listed in the order of `keys`. */
  function Rows(counts: map<string, nat>, keys: seq<string>): (rows: seq<ArtistCount>)
    requires forall k :: k in keys ==> k in counts
    ensures |rows| == |keys|
    ensures forall i :: 0 <= i < |keys| ==> rows[i] == ArtistCount(keys[i], counts[keys[i]])
  {
    if keys == [] then []
    else [ArtistCount(keys[0], counts[keys[0]])] + Rows(counts, keys[1..])
  }

  /** `Object.entries(artistCount)`: the rows in the object's own-key order. */
  function Entries(counts: map<string, nat>, created: seq<string>): seq<ArtistCount>
    requires forall k :: k in created ==> k in counts
  {
    var keys := OwnKeys(created);
    assert forall k :: k in keys ==> k in counts by {
      forall k | k in keys ensures k in counts {
        assert k in multiset(keys);
      }
    }
    Rows(counts, keys)
  }

  /** Rows by non-increasing count, each at least as large as the next. */
  predicate ByCount(rows: seq<ArtistCount>) {
    |rows| <= 1 || (rows[0].count >= rows[1].count && ByCount(rows[1..]))
  }

  /**
   Insertion of a row before the first row whose count is not larger: the
   new row, which came earlier in the input, stays ahead of its equals.
   */
  function InsertByCount(row: ArtistCount, rows: seq<ArtistCount>): (r: seq<ArtistCount>)
    requires ByCount(rows)
    ensures multiset(r) == multiset(rows) + multiset{row}
    ensures ByCount(r)
    ensures |r| == |rows| + 1 && (r[0] == row || (rows != [] && r[0] == rows[0]))
  {
    if rows == [] then [row]
    else if row.count >= rows[0].count then [row] + rows
    else
      assert rows == [rows[0]] + rows[1..];
      [rows[0]] + InsertByCount(row, rows[1..])
  }

  /** A stable sort by descending count (the comparator `b - a`). */
  function SortByCount(rows: seq<ArtistCount>): (r: seq<ArtistCount>)
    ensures multiset(r) == multiset(rows)
    ensures |r| == |rows|
    ensures ByCount(r)
  {
    if rows == [] then []
    else
      assert rows == [rows[0]] + rows[1..];
      InsertByCount(rows[0], SortByCount(rows[1..]))
  }

  /** The rows with count `c`, in their order. */
  function WithCount(rows: seq<ArtistCount>, c: nat): seq<ArtistCount> {
    Filter(rows, (r: ArtistCount) => r.count == c)
  }

  lemma WithCountCons(row: ArtistCount, rows: seq<ArtistCount>, c: nat)
    ensures WithCount([row] + rows, c) == (if row.count == c then [row] else []) + WithCount(rows, c)
  {
    assert ([row] + rows)[1..] == rows;
  }

  lemma InsertByCountUnfold(row: ArtistCount, rows: seq<ArtistCount>)
    requires ByCount(rows) && rows != [] && row.count < rows[0].count
    ensures InsertByCount(row, rows) == [rows[0]] + InsertByCount(row, rows[1..])
  {
  }

  /** Two rows of different counts can trade places without disturbing any group. */
  lemma WithCountSwap(row: ArtistCount, head: ArtistCount, rest: seq<ArtistCount>, tail: seq<ArtistCount>, c: nat)
    requires WithCount(rest, c) == WithCount([row] + tail, c)
    requires row.count != head.count
    ensures WithCount([head] + rest, c) == WithCount([row] + ([head] + tail), c)
  {
    WithCountCons(head, rest, c);
    WithCountCons(row, tail, c);
    WithCountCons(row, [head] + tail, c);
    WithCountCons(head, tail, c);
  }

  /** Inserting a row keeps every group of equal counts in input order. */
  lemma {:induction false} InsertByCountStable(row: ArtistCount, rows: seq<ArtistCount>, c: nat)
    requires ByCount(rows)
    ensures WithCount(InsertByCount(row, rows), c) == WithCount([row] + rows, c)
  {
    if rows != [] && row.count < rows[0].count {
      InsertByCountUnfold(row, rows);
      InsertByCountStable(row, rows[1..], c);
      WithCountSwap(row, rows[0], InsertByCount(row, rows[1..]), rows[1..], c);
      assert rows == [rows[0]] + rows[1..];
    }
  }

  /** The sort is stable: rows of equal count keep their input order. */
  lemma {:induction false} SortByCountStable(rows: seq<ArtistCount>, c: nat)
    ensures WithCount(SortByCount(rows), c) == WithCount(rows, c)
  {
    if rows != [] {
      assert rows == [rows[0]] + rows[1..];
      SortByCountStable(rows[1..], c);
      InsertByCountStable(rows[0], SortByCount(rows[1..]), c);
      WithCountCons(rows[0], SortByCount(rows[1..]), c);
      WithCountCons(rows[0], rows[1..], c);
    }
  }

  /** A sorted list is ordered between any two of its positions. */
  lemma {:induction false} ByCountPairwise(rows: seq<ArtistCount>, i: nat, j: nat)
    requires ByCount(rows) && i <= j < |rows|
    ensures rows[i].count >= rows[j].count
  {
    if i < j {
      if i == 0 {
        ByCountPairwise(rows[1..], 0, j - 1);
      } else {
        ByCountPairwise(rows[1..], i - 1, j - 1);
      }
    }
  }

  /** Every row counts at least as much as every later row. */
  predicate Descending(rows: seq<ArtistCount>) {
    forall i, j :: 0 <= i < j < |rows| ==> rows[i].count >= rows[j].count
  }

  lemma ByCountDescending(rows: seq<ArtistCount>)
    requires ByCount(rows)
    ensures Descending(rows)
  {
    forall i, j | 0 <= i < j < |rows| ensures rows[i].count >= rows[j].count {
      ByCountPairwise(rows, i, j);
    }
  }

  lemma DescendingPrefix(rows: seq<ArtistCount>, m: nat)
    requires Descending(rows) && m <= |rows|
    ensures Descending(rows[..m])
  {
  }

  /** A row of a sorted list that is not in a leading part counts no more than that part. */
  lemma BelowPrefix(rows: seq<ArtistCount>, top: seq<ArtistCount>, row: ArtistCount)
    requires ByCount(rows) && |top| <= |rows| && top == rows[..|top|]
    requires row in rows
    requires forall i :: 0 <= i < |top| ==> top[i].artist != row.artist
    ensures forall i :: 0 <= i < |top| ==> row.count <= top[i].count
  {
    var m := |top|;
    assert rows == top + rows[m..];
    assert row !in top;
    var q :| 0 <= q < |rows[m..]| && rows[m..][q] == row;
    forall i | 0 <= i < m ensures row.count <= top[i].count {
      ByCountPairwise(rows, i, m + q);
    }
  }

  /** How many rows the panel shows, `slice(0, 3)`. */
  const TopCount: nat := 3

  /** The ranking of a dictionary: sort its entries, keep the first three. */
  function Rank(counts: map<string, nat>, created: seq<string>): seq<ArtistCount>
    requires forall k :: k in created ==> k in counts
  {
    var sorted := SortByCount(Entries(counts, created));
    sorted[..Min(TopCount, |sorted|)]
  }

  /** The reference result of `getTopArtists` for a log. */
  function TopArtists(files: seq<UploadedFile>): seq<ArtistCount> {
    var names := Contributions(files);
    Rank(Tally(names), Distinct(names))
  }

  /** `getTopArtists`: the tally loop followed by the ranking chain. */
  method GetTopArtists(files: seq<UploadedFile>) returns (top: seq<ArtistCount>)
    ensures top == TopArtists(files)
    ensures |top| == Min(TopCount, |set n | n in Contributions(files)|)
    ensures Descending(top)
    ensures forall row :: row in top ==> Counted(row, Contributions(files))
  {
    var counts, created := CountArtists(files);
    top := Rank(counts, created);
    TopArtistsSize(files);
    TopArtistsRanked(files);
    TopArtistsCounts(files);
  }

  // ---------------------------------------------------------------------
  // What the ranking promises
  // ---------------------------------------------------------------------

  /** Every created key has its row among the entries. */
  lemma EntriesHasRow(counts: map<string, nat>, created: seq<string>, k: string)
    requires forall k :: k in created ==> k in counts
    requires k in created
    ensures ArtistCount(k, counts[k]) in Entries(counts, created)
  {
    var keys := OwnKeys(created);
    assert k in multiset(created);
    assert k in multiset(keys);
    var i :| 0 <= i < |keys| && keys[i] == k;
    assert Entries(counts, created)[i] == ArtistCount(k, counts[k]);
  }

  /** Every entry is a created key paired with its count. */
  lemma EntriesRowIsKey(counts: map<string, nat>, created: seq<string>, row: ArtistCount)
    requires forall k :: k in created ==> k in counts
    requires row in Entries(counts, created)
    ensures row.artist in created && row.count == counts[row.artist]
  {
    var keys := OwnKeys(created);
    var rows := Entries(counts, created);
    var i :| 0 <= i < |rows| && rows[i] == row;
    assert keys[i] in multiset(created);
  }

  /** One entry per created key. */
  lemma EntriesLength(counts: map<string, nat>, created: seq<string>)
    requires forall k :: k in created ==> k in counts
    ensures |Entries(counts, created)| == |created|
  {
    var keys := OwnKeys(created);
    assert |keys| == |multiset(keys)| == |multiset(created)| == |created|;
  }

  /** Distinct keys give distinct entries. */
  lemma EntriesNoDup(counts: map<string, nat>, created: seq<string>)
    requires forall k :: k in created ==> k in counts
    requires NoDup(created)
    ensures NoDup(Entries(counts, created))
  {
    OwnKeysNoDup(created);
  }

  /** The sorted entries of a log's tally: the list the panel cuts to three. */
  function RankedRows(files: seq<UploadedFile>): seq<ArtistCount> {
    var names := Contributions(files);
    SortByCount(Entries(Tally(names), Distinct(names)))
  }

  /** The panel's rows are the leading rows of the sorted entries. */
  lemma TopArtistsPrefix(files: seq<UploadedFile>)
    ensures TopArtists(files) == RankedRows(files)[..Min(TopCount, |RankedRows(files)|)]
  {
  }

  /** Every contributed name has its row, with its number of contributions, in the sorted list. */
  lemma RankedHasRow(files: seq<UploadedFile>, n: string)
    requires n in Contributions(files)
    ensures ArtistCount(n, multiset(Contributions(files))[n]) in RankedRows(files)
  {
    var names := Contributions(files);
    var entries := Entries(Tally(names), Distinct(names));
    EntriesHasRow(Tally(names), Distinct(names), n);
    assert ArtistCount(n, multiset(names)[n]) in multiset(entries);
  }

  /** Every sorted row is a contributed name with its number of contributions. */
  lemma RankedRowIsContribution(files: seq<UploadedFile>, row: ArtistCount)
    requires row in RankedRows(files)
    ensures row.artist in Contributions(files)
    ensures row.count == multiset(Contributions(files))[row.artist]
  {
    var names := Contributions(files);
    var entries := Entries(Tally(names), Distinct(names));
    assert row in multiset(RankedRows(files));
    assert row in multiset(entries);
    EntriesRowIsKey(Tally(names), Distinct(names), row);
  }

  /** The sorted list has one row per distinct contributed name. */
  lemma RankedRowsSize(files: seq<UploadedFile>)
    ensures |RankedRows(files)| == |set n | n in Contributions(files)|
  {
    var names := Contributions(files);
    EntriesLength(Tally(names), Distinct(names));
    DistinctCardinality(names);
  }

  /** The sorted list repeats no row. */
  lemma RankedRowsNoDup(files: seq<UploadedFile>)
    ensures NoDup(RankedRows(files))
  {
    var names := Contributions(files);
    EntriesNoDup(Tally(names), Distinct(names));
    PermutationNoDup(Entries(Tally(names), Distinct(names)), RankedRows(files));
  }

  /** The panel lists min(3, number of distinct names) rows. */
  lemma TopArtistsSize(files: seq<UploadedFile>)
    ensures |TopArtists(files)| == Min(TopCount, |set n | n in Contributions(files)|)
  {
    TopArtistsPrefix(files);
    RankedRowsSize(files);
  }

  /** The rows come in non-increasing order of count. */
  lemma TopArtistsRanked(files: seq<UploadedFile>)
    ensures Descending(TopArtists(files))
  {
    TopArtistsPrefix(files);
    var sorted := RankedRows(files);
    ByCountDescending(sorted);
    DescendingPrefix(sorted, Min(TopCount, |sorted|));
  }

  /** A row that names a contribution and carries its number of contributions. */
  predicate Counted(row: ArtistCount, names: seq<string>) {
    row.artist in names && row.count == multiset(names)[row.artist]
  }

  /** Each row is a contributed name carrying its exact number of contributions. */
  lemma TopArtistsCounts(files: seq<UploadedFile>)
    ensures forall row :: row in TopArtists(files) ==> Counted(row, Contributions(files))
  {
    TopArtistsPrefix(files);
    var sorted := RankedRows(files);
    forall row | row in sorted ensures Counted(row, Contributions(files)) {
      RankedRowIsContribution(files, row);
    }
  }

  /** No name is listed twice. */
  lemma TopArtistsDistinct(files: seq<UploadedFile>)
    ensures var top := TopArtists(files);
      forall i, j :: 0 <= i < j < |top| ==> top[i].artist != top[j].artist
  {
    TopArtistsPrefix(files);
    RankedRowsNoDup(files);
    var top, sorted := TopArtists(files), RankedRows(files);
    forall i, j | 0 <= i < j < |top| ensures top[i].artist != top[j].artist {
      assert top[i] == sorted[i] && top[j] == sorted[j];
      RankedRowIsContribution(files, sorted[i]);
      RankedRowIsContribution(files, sorted[j]);
    }
  }

  /** A name that is left out was contributed no more often than any listed one. */
  lemma TopArtistsAreTop(files: seq<UploadedFile>, n: string)
    requires n in Contributions(files)
    requires forall i :: 0 <= i < |TopArtists(files)| ==> TopArtists(files)[i].artist != n
    ensures forall i :: 0 <= i < |TopArtists(files)| ==>
      multiset(Contributions(files))[n] <= TopArtists(files)[i].count
  {
    TopArtistsPrefix(files);
    RankedHasRow(files, n);
    BelowPrefix(RankedRows(files), TopArtists(files), ArtistCount(n, multiset(Contributions(files))[n]));
  }

  /**
   Ties keep the dictionary's key order: among rows of equal count, the panel
   shows a leading part of them, in `Object.entries` order.
   */
  lemma TopArtistsTies(files: seq<UploadedFile>, c: nat)
    ensures var names := Contributions(files);
      WithCount(TopArtists(files), c) <= WithCount(Entries(Tally(names), Distinct(names)), c)
  {
    TopArtistsPrefix(files);
    var sorted := RankedRows(files);
    FilterPrefix(sorted, Min(TopCount, |sorted|), (r: ArtistCount) => r.count == c);
    var names := Contributions(files);
    SortByCountStable(Entries(Tally(names), Distinct(names)), c);
  }

  /**
   When no name looks like an array index, the dictionary's key order is the
   order names were first counted, so ties are broken by first appearance.
   */
  lemma TopArtistsTiesByFirstAppearance(files: seq<UploadedFile>, c: nat)
    requires forall n :: n in Contributions(files) ==> !IsArrayIndex(n)
    ensures var names := Contributions(files);
      WithCount(TopArtists(files), c) <= WithCount(Rows(Tally(names), Distinct(names)), c)
  {
    TopArtistsTies(files, c);
    OwnKeysCreationOrder(Distinct(Contributions(files)));
  }

  /** The panel shows its empty-state message exactly when nothing was contributed. */
  lemma NoArtistsMessage(files: seq<UploadedFile>)
    ensures TopArtists(files) == [] <==> Contributions(files) == []
  {
    TopArtistsSize(files);
    var names := Contributions(files);
    if names != [] {
      assert names[0] in (set n | n in names);
    }
  }

  // ---------------------------------------------------------------------
  // What each count adds up to
  // ---------------------------------------------------------------------

  /** How many credits of a list clean to `n`. */
  function CreditHits(credits: seq<string>, n: string): nat {
    if credits == [] then 0
    else
      CreditHits(credits[..|credits| - 1], n)
      + (if CleanArtist(credits[|credits| - 1]) == n then 1 else 0)
  }

  /** Vocalist credits across the log that clean to `n`. */
  function VocalistHits(files: seq<UploadedFile>, n: string): nat {
    if files == [] then 0
    else
      var last := files[|files| - 1];
      VocalistHits(files[..|files| - 1], n)
      + (if last.metadata.Some? && last.metadata.value.vocalists.Some?
         then CreditHits(last.metadata.value.vocalists.value, n) else 0)
  }

  /** Records whose producer is exactly the non-empty text `n`. */
  function ProducerHits(files: seq<UploadedFile>, n: string): nat {
    if files == [] then 0
    else
      var last := files[|files| - 1];
      ProducerHits(files[..|files| - 1], n)
      + (if last.metadata.Some? && last.metadata.value.producer == Some(n) && n != "" then 1 else 0)
  }

  lemma {:induction false} CleanNamesHits(credits: seq<string>, n: string)
    ensures multiset(CleanNames(credits))[n] == CreditHits(credits, n)
  {
    if credits != [] {
      CleanNamesHits(credits[..|credits| - 1], n);
    }
  }

  /** What one record adds to a name's count. */
  lemma RecordNamesHits(f: UploadedFile, n: string)
    ensures multiset(RecordNames(f))[n]
         == (if f.metadata.Some? && f.metadata.value.vocalists.Some?
             then CreditHits(f.metadata.value.vocalists.value, n) else 0)
          + (if f.metadata.Some? && f.metadata.value.producer == Some(n) && n != "" then 1 else 0)
  {
    var v, p := VocalistNames(f), ProducerNames(f);
    assert multiset(RecordNames(f))[n] == multiset(v)[n] + multiset(p)[n];
    if f.metadata.Some? && f.metadata.value.vocalists.Some? {
      CleanNamesHits(f.metadata.value.vocalists.value, n);
    }
    if f.metadata.Some? && Truthy(f.metadata.value.producer) {
      assert multiset(p)[n] == if f.metadata.value.producer.value == n then 1 else 0;
    }
  }

  /**
   A name's count is its vocalist credits plus the records it produced:
   both roles feed one dictionary, a vocalist's credit counts once per
   occurrence, and a producer's text is never split.
   */
  lemma {:induction false} CountsBothRoles(files: seq<UploadedFile>, n: string)
    ensures multiset(Contributions(files))[n] == VocalistHits(files, n) + ProducerHits(files, n)
  {
    if files != [] {
      var init, last := files[..|files| - 1], files[|files| - 1];
      CountsBothRoles(init, n);
      RecordNamesHits(last, n);
      assert Contributions(files) == Contributions(init) + RecordNames(last);
      assert multiset(Contributions(files))[n]
          == multiset(Contributions(init))[n] + multiset(RecordNames(last))[n];
    }
  }

  /** All vocalist credits of the log. */
  function VocalistCredits(files: seq<UploadedFile>): nat {
    if files == [] then 0
    else
      var last := files[|files| - 1];
      VocalistCredits(files[..|files| - 1])
      + (if last.metadata.Some? && last.metadata.value.vocalists.Some?
         then |last.metadata.value.vocalists.value| else 0)
  }

  /** Records of the log with a truthy producer. */
  function TruthyProducers(files: seq<UploadedFile>): nat {
    if files == [] then 0
    else
      var last := files[|files| - 1];
      TruthyProducers(files[..|files| - 1])
      + (if last.metadata.Some? && Truthy(last.metadata.value.producer) then 1 else 0)
  }

  lemma {:induction false} ContributionsLength(files: seq<UploadedFile>)
    ensures |Contributions(files)| == VocalistCredits(files) + TruthyProducers(files)
  {
    if files != [] {
      ContributionsLength(files[..|files| - 1]);
    }
  }

  /** The sum of the counts of `keys`. */
  function Total(counts: map<string, nat>, keys: seq<string>): nat
    requires forall k :: k in keys ==> k in counts
  {
    if keys == [] then 0 else counts[keys[0]] + Total(counts, keys[1..])
  }

  lemma {:induction false} TotalSkip(counts: map<string, nat>, keys: seq<string>, n: string, v: nat)
    requires forall k :: k in keys ==> k in counts
    requires n !in keys
    ensures Total(counts[n := v], keys) == Total(counts, keys)
  {
    if keys != [] {
      TotalSkip(counts, keys[1..], n, v);
    }
  }

  lemma {:induction false} TotalBump(counts: map<string, nat>, keys: seq<string>, n: string)
    requires forall k :: k in keys ==> k in counts
    requires NoDup(keys) && n in keys
    ensures Total(counts[n := counts[n] + 1], keys) == Total(counts, keys) + 1
  {
    if keys[0] == n {
      assert n !in keys[1..];
      TotalSkip(counts, keys[1..], n, counts[n] + 1);
    } else {
      TotalBump(counts, keys[1..], n);
    }
  }

  lemma {:induction false} TotalAppend(counts: map<string, nat>, keys: seq<string>, n: string)
    requires forall k :: k in keys ==> k in counts
    requires n in counts
    ensures Total(counts, keys + [n]) == Total(counts, keys) + counts[n]
  {
    if keys != [] {
      assert (keys + [n])[1..] == keys[1..] + [n];
      TotalAppend(counts, keys[1..], n);
    }
  }

  /** Every counted name adds exactly one to the dictionary's total. */
  lemma {:induction false} TallyTotal(names: seq<string>)
    ensures Total(Tally(names), Distinct(names)) == |names|
  {
    if names != [] {
      var init, n := names[..|names| - 1], names[|names| - 1];
      assert names == init + [n];
      TallyTotal(init);
      TallyStep(init, n);
      var m, d := Tally(init), Distinct(init);
      if n in m {
        TotalBump(m, d, n);
      } else {
        TotalAppend(m[n := 1], d, n);
        TotalSkip(m, d, n, 1);
      }
    }
  }

  /**
   Before the cut to three, the counts add up to the vocalist credits plus
   the truthy producers of the whole log.
   */
  lemma DictionaryTotal(files: seq<UploadedFile>)
    ensures var names := Contributions(files);
      Total(Tally(names), Distinct(names)) == VocalistCredits(files) + TruthyProducers(files)
  {
    TallyTotal(Contributions(files));
    ContributionsLength(files);
  }

  // ---------------------------------------------------------------------
  // The statistics panel
  // ---------------------------------------------------------------------

  datatype Statistics = Statistics(filesAnalyzed: nat, uniqueArtists: nat)

  /** "Files Analyzed" is the log's length; "Unique Artists" is the length of the top-three list. */
  function Stats(files: seq<UploadedFile>): (s: Statistics)
    ensures s.filesAnalyzed == |files|
    ensures s.uniqueArtists == Min(TopCount, |set n | n in Contributions(files)|)
    ensures s.uniqueArtists <= TopCount
  {
    TopArtistsSize(files);
    Statistics(|files|, |TopArtists(files)|)
  }
}
