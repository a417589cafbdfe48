// The song library view of src/components/MainContent.tsx: the key and
// tempo filters and the comparator the filtered list is sorted with.

module MainContent {
  import opened Wrappers
  import opened Strings
  import opened Songs
  import opened Lists
  import opened Ordering

  /** The key filter: 'all', or a song with a truthy key that includes the filter text. */
  predicate KeyPasses(keyFilter: string, key: Option<string>)
  {
    keyFilter == "all" || (TruthyString(key) && Contains(key.value, keyFilter))
  }

  /**
   * The tempo filter: songs without a truthy tempo always pass; otherwise
   * the four ranges are inclusive at both ends, and any other filter value
   * passes everything.
   */
  predicate TempoPasses(tempoFilter: string, tempo: Option<real>)
  {
    if tempoFilter != "all" && TruthyNumber(tempo) then
      var t := tempo.value;
      if tempoFilter == "60-90" then !(t < 60.0 || t > 90.0)
      else if tempoFilter == "90-120" then !(t < 90.0 || t > 120.0)
      else if tempoFilter == "120-150" then !(t < 120.0 || t > 150.0)
      else if tempoFilter == "150+" then !(t < 150.0)
      else true
    else true
  }

  /** The filter callback. */
  function Shown(keyFilter: string, tempoFilter: string): Song -> bool
  {
    (song: Song) => KeyPasses(keyFilter, song.key) && TempoPasses(tempoFilter, song.tempo)
  }

  /** `songs.filter(...)`: a new list. */
  function Filtered(songs: seq<Song>, keyFilter: string, tempoFilter: string): (r: seq<Song>)
    ensures |r| <= |songs|
  {
    Filter(songs, Shown(keyFilter, tempoFilter))
  }

  /** The filtered list holds exactly the songs both filters accept. */
  lemma FilteredExact(songs: seq<Song>, keyFilter: string, tempoFilter: string)
    ensures forall x :: x in Filtered(songs, keyFilter, tempoFilter) <==>
                        x in songs && KeyPasses(keyFilter, x.key) && TempoPasses(tempoFilter, x.tempo)
  {
  }

  /** With both filters at 'all', every song is shown, in its order. */
  lemma FilteredAll(songs: seq<Song>)
    ensures Filtered(songs, "all", "all") == songs
  {
    FilterAll(songs, Shown("all", "all"));
  }

  /** The key filter matches substrings: a filter keeps every key that starts with it, so 'C' keeps 'C#'. */
  lemma KeyFilterKeepsExtensions(keyFilter: string, rest: string)
    requires |keyFilter + rest| > 0
    ensures KeyPasses(keyFilter, Some(keyFilter + rest))
  {
    assert (keyFilter + rest)[0..|keyFilter|] == keyFilter;
    assert OccursAt(keyFilter + rest, keyFilter, 0);
  }

  /** A filter other than 'all' drops songs without a key or with an empty one. */
  lemma KeyFilterDropsMissingKey(keyFilter: string)
    requires keyFilter != "all"
    ensures !KeyPasses(keyFilter, None) && !KeyPasses(keyFilter, Some(""))
  {
  }

  /** Songs with no tempo, or tempo 0, pass every tempo filter. */
  lemma TempoFilterPassesUnknown(tempoFilter: string)
    ensures TempoPasses(tempoFilter, None) && TempoPasses(tempoFilter, Some(0.0))
  {
  }

  /** For a known tempo the ranges are inclusive, so the boundaries 90, 120 and 150 fall in two ranges. */
  lemma TempoRanges(t: real)
    requires t != 0.0
    ensures TempoPasses("60-90", Some(t)) <==> 60.0 <= t <= 90.0
    ensures TempoPasses("90-120", Some(t)) <==> 90.0 <= t <= 120.0
    ensures TempoPasses("120-150", Some(t)) <==> 120.0 <= t <= 150.0
    ensures TempoPasses("150+", Some(t)) <==> 150.0 <= t
    ensures t == 90.0 ==> TempoPasses("60-90", Some(t)) && TempoPasses("90-120", Some(t))
    ensures t == 120.0 ==> TempoPasses("90-120", Some(t)) && TempoPasses("120-150", Some(t))
    ensures t == 150.0 ==> TempoPasses("120-150", Some(t)) && TempoPasses("150+", Some(t))
  {
  }

  // The comparator.

  /** A sort value: `aValue` and `bValue` are strings or numbers. */
  datatype SortValue = Text(text: string) | Number(number: real)

  /** `<` on two sort values; the two come from the same field, so a string never meets a number. */
  predicate ValueLess(x: SortValue, y: SortValue)
  {
    match (x, y)
    case (Text(a), Text(b)) => TextLess(a, b)
    case (Number(a), Number(b)) => a < b
    case (Number(_), Text(_)) => true
    case (Text(_), Number(_)) => false
  }

  /** The comparator's return for two sort values: `a < b ? -1 : a > b ? 1 : 0`, or the reverse for 'desc'. */
  function ThreeWay(asc: bool, x: SortValue, y: SortValue): (r: int)
    ensures -1 <= r <= 1
  {
    if asc then (if ValueLess(x, y) then -1 else if ValueLess(y, x) then 1 else 0)
    else (if ValueLess(y, x) then -1 else if ValueLess(x, y) then 1 else 0)
  }

  /** The value the switch compares for a sort field. */
  function SortKey(sortField: string, song: Song): (v: SortValue)
  {
    if sortField == "title" then Text(Lower(song.title))
    else if sortField == "artist" then Text(Lower(song.artist))
    else if sortField == "tempo" then Number(TempoOrZero(song))
    else if sortField == "key" then Text(KeyOrEmpty(song))
    else Number(song.uploadDate as real)
  }

  /** The comparator of the sort for a sort field and direction. */
  function SongCompare(sortField: string, sortDirection: string, a: Song, b: Song): (r: int)
    ensures -1 <= r <= 1
  {
    ThreeWay(sortDirection == "asc", SortKey(sortField, a), SortKey(sortField, b))
  }

  /** `song.tempo || 0`. */
  function TempoOrZero(song: Song): real
  {
    if TruthyNumber(song.tempo) then song.tempo.value else 0.0
  }

  /** `song.key || ''`. */
  function KeyOrEmpty(song: Song): string
  {
    if TruthyString(song.key) then song.key.value else ""
  }

  /** `a` may come before `b`: the comparator does not return a positive number. */
  function SongOrder(sortField: string, sortDirection: string): (Song, Song) -> bool
  {
    (a: Song, b: Song) => SongCompare(sortField, sortDirection, a, b) <= 0
  }

  /** The list the view renders: the filtered copy, sorted. */
  function FilteredAndSorted(songs: seq<Song>, keyFilter: string, tempoFilter: string, sortField: string,
                             sortDirection: string): (r: seq<Song>)
    ensures multiset(r) == multiset(Filtered(songs, keyFilter, tempoFilter))
  {
    SortBy(Filtered(songs, keyFilter, tempoFilter), SongOrder(sortField, sortDirection))
  }

  /** `<` on sort values is a strict total order: irreflexive, transitive, and any two different values are ordered. */
  lemma ValueLessStrictTotal()
    ensures forall x :: !ValueLess(x, x)
    ensures forall x, y, z :: ValueLess(x, y) && ValueLess(y, z) ==> ValueLess(x, z)
    ensures forall x, y :: x != y ==> ValueLess(x, y) || ValueLess(y, x)
  {
    forall x ensures !ValueLess(x, x) {
      if x.Text? { TextLessIrreflexive(x.text); }
    }
    forall x, y, z | ValueLess(x, y) && ValueLess(y, z) ensures ValueLess(x, z) {
      if x.Text? && y.Text? && z.Text? { TextLessTransitive(x.text, y.text, z.text); }
    }
    forall x, y | x != y ensures ValueLess(x, y) || ValueLess(y, x) {
      if x.Text? && y.Text? { TextLessConnected(x.text, y.text); }
    }
  }

  /** Every sort field and direction gives a total, transitive order, so the sort sorts. */
  lemma SongOrderIsTotal(s: seq<Song>, sortField: string, sortDirection: string)
    ensures TotalOn(s, SongOrder(sortField, sortDirection)) && TransitiveOn(s, SongOrder(sortField, sortDirection))
  {
    ValueLessStrictTotal();
  }

  /** The rendered list is sorted and is a permutation of the songs the filters accept. */
  lemma FilteredAndSortedSorted(songs: seq<Song>, keyFilter: string, tempoFilter: string, sortField: string,
                                sortDirection: string)
    ensures var r := FilteredAndSorted(songs, keyFilter, tempoFilter, sortField, sortDirection);
            SortedBy(r, SongOrder(sortField, sortDirection)) &&
            forall x :: x in r <==> x in songs && KeyPasses(keyFilter, x.key) && TempoPasses(tempoFilter, x.tempo)
  {
    var f := Filtered(songs, keyFilter, tempoFilter);
    SongOrderIsTotal(f, sortField, sortDirection);
    SortBySorted(f, SongOrder(sortField, sortDirection));
    SortBySameElements(f, SongOrder(sortField, sortDirection));
  }

  /** 'desc' is the exact reverse of 'asc', and swapping the songs reverses the comparison. */
  lemma DescendingReversesAscending(sortField: string, a: Song, b: Song)
    ensures SongCompare(sortField, "desc", a, b) == -SongCompare(sortField, "asc", a, b)
    ensures SongCompare(sortField, "asc", a, b) == -SongCompare(sortField, "asc", b, a)
  {
    var x, y := SortKey(sortField, a), SortKey(sortField, b);
    ValueLessStrictTotal();
    assert !(ValueLess(x, y) && ValueLess(y, x));
  }
}
