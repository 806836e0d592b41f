/**
 The Ogg page scan that measures an Opus file: page layout as in section 6 of
 RFC 3533, 48 kHz granule clock as in section 4 of RFC 7845.
 */
module OggScan {
  import opened Names

  type byte = b: int | 0 <= b < 256

  const HEADER := 27
  const SAMPLE_RATE := 48000.0
  const MAGIC: seq<byte> := ['O' as int, 'g' as int, 'g' as int, 'S' as int]
  const TWO_63 := 0x8000_0000_0000_0000
  const TWO_64 := 0x1_0000_0000_0000_0000

  // ---------- Little-endian numbers ----------

  function FromBytes(bs: seq<byte>): nat {
    if bs == [] then 0 else bs[0] + 256 * FromBytes(bs[1..])
  }

  function ToBytes(n: nat, width: nat): (r: seq<byte>)
    ensures |r| == width
    decreases width
  {
    if width == 0 then [] else [n % 256] + ToBytes(n / 256, width - 1)
  }

  function Pow256(k: nat): nat {
    if k == 0 then 1 else 256 * Pow256(k - 1)
  }

  lemma {:induction false} BytesRoundTrip(n: nat, width: nat)
    requires n < Pow256(width)
    ensures FromBytes(ToBytes(n, width)) == n
    decreases width
  {
    if width > 0 {
      BytesRoundTrip(n / 256, width - 1);
      assert ToBytes(n, width)[1..] == ToBytes(n / 256, width - 1);
    }
  }

  function Signed(u: nat): int {
    if u >= TWO_63 then u - TWO_64 else u
  }

  function Unsigned(g: int): int {
    if g < 0 then g + TWO_64 else g
  }

  // ---------- What the scan sees ----------

  /** A page header found at a position, with its granule position. */
  datatype Hit = Hit(at: nat, granule: int)

  predicate Magic(d: seq<byte>) {
    |d| >= 4 && d[0] == MAGIC[0] && d[1] == MAGIC[1] && d[2] == MAGIC[2] && d[3] == MAGIC[3]
  }

  function Sum(bs: seq<byte>): nat {
    if bs == [] then 0 else Sum(bs[..|bs| - 1]) + bs[|bs| - 1]
  }

  function GranuleOf(d: seq<byte>): int
    requires |d| >= HEADER
  {
    Signed(FromBytes(d[6..14]))
  }

  /** The headers met by scanning the given remainder of the file, which starts at the given position. */
  function Hits(d: seq<byte>, at: nat): seq<Hit> {
    if |d| < HEADER then []
    else if !Magic(d) then Hits(d[1..], at + 1)
    else
      var hit := Hit(at, GranuleOf(d));
      var table := HEADER + d[26];
      if table > |d| then [hit]
      else
        var next := table + Sum(d[HEADER..table]);
        if next > |d| then [hit] else [hit] + Hits(d[next..], at + next)
  }

  /** The largest granule position, or zero. */
  function Latest(hits: seq<Hit>): int {
    if hits == [] then 0
    else
      var best := Latest(hits[..|hits| - 1]);
      if hits[|hits| - 1].granule > best then hits[|hits| - 1].granule else best
  }

  lemma {:induction false} LatestIsMaximum(hits: seq<Hit>)
    ensures Latest(hits) >= 0 && forall h :: h in hits ==> h.granule <= Latest(hits)
    ensures Latest(hits) == 0 || exists h :: h in hits && h.granule == Latest(hits)
  {
    if hits != [] {
      LatestIsMaximum(hits[..|hits| - 1]);
      assert hits == hits[..|hits| - 1] + [hits[|hits| - 1]];
    }
  }

  // ---------- The loop ----------

  method SumTable(table: seq<byte>) returns (total: nat)
    ensures total == Sum(table)
  {
    total := 0;
    for i := 0 to |table|
      invariant total == Sum(table[..i])
    {
      assert table[..i + 1][..i] == table[..i];
      total := total + table[i];
    }
    assert table[..|table|] == table;
  }

  /** Reads the page header at the position; next is where reading goes on, or None when the table is cut off. */
  method ReadPage(data: seq<byte>, pos: nat) returns (granule: int, next: Option<nat>)
    requires pos + HEADER <= |data| && Magic(data[pos..])
    ensures next.Some? ==> next.value > pos
    ensures Remaining(data, Some(pos)) == [Hit(pos, granule)] + Remaining(data, next)
  {
    ghost var rest := data[pos..];
    var header := data[pos..pos + HEADER];
    HeaderSlice(data, pos);
    granule := Signed(FromBytes(header[6..14]));
    var segments := header[26];
    var start := pos + HEADER;
    if |data| - start < segments { return granule, None; }
    var table := data[start..start + segments];
    SliceOf(data, pos, HEADER, HEADER + segments);
    var pageSize := SumTable(table);
    next := Some(start + segments + pageSize);
    PageStep(data, pos, next.value);
  }

  lemma SliceOf(data: seq<byte>, pos: nat, i: nat, j: nat)
    requires i <= j && pos + j <= |data|
    ensures data[pos..][i..j] == data[pos + i..pos + j]
  {
  }

  lemma HeaderSlice(data: seq<byte>, pos: nat)
    requires pos + HEADER <= |data|
    ensures data[pos..pos + HEADER][6..14] == data[pos..][6..14] && data[pos..pos + HEADER][26] == data[pos..][26]
  {
    assert data[pos..pos + HEADER] == data[pos..][..HEADER];
  }

  lemma PageStep(data: seq<byte>, pos: nat, next: nat)
    requires pos + HEADER <= |data| && Magic(data[pos..])
    requires var rest := data[pos..]; var table := HEADER + rest[26];
             table <= |rest| && next == pos + table + Sum(rest[HEADER..table])
    ensures Remaining(data, Some(pos)) == [Hit(pos, GranuleOf(data[pos..]))] + Remaining(data, Some(next))
  {
    if next <= |data| { assert data[pos..][next - pos..] == data[next..]; }
  }

  /** What scanning finds from the position on; beyond the end there is nothing. */
  ghost function Remaining(data: seq<byte>, pos: Option<nat>): seq<Hit> {
    if pos.Some? && pos.value <= |data| then Hits(data[pos.value..], pos.value) else []
  }

  lemma NoPageHere(data: seq<byte>, pos: nat)
    requires pos < |data| && |data| - pos >= HEADER ==> !Magic(data[pos..])
    ensures Remaining(data, Some(pos)) == if pos < |data| && |data| - pos >= HEADER then Remaining(data, Some(pos + 1)) else []
  {
    if pos < |data| { assert data[pos..][1..] == data[pos + 1..]; }
  }

  lemma LatestSnoc(visited: seq<Hit>, hit: Hit)
    ensures Latest(visited + [hit]) == if hit.granule > Latest(visited) then hit.granule else Latest(visited)
  {
    assert (visited + [hit])[..|visited|] == visited;
  }

  lemma HitsAssociate(a: seq<Hit>, h: Hit, b: seq<Hit>)
    ensures a + ([h] + b) == (a + [h]) + b
  {
  }

  /** getOpusDuration over the bytes of a seekable reader; every iteration but the last moves forward. */
  method OpusDuration(data: seq<byte>) returns (duration: real, total: int, ghost visited: seq<Hit>)
    ensures visited == Hits(data, 0)
    ensures total == Latest(visited)
    ensures duration == total as real / SAMPLE_RATE
  {
    total, visited := ScanPages(data);
    duration := total as real / SAMPLE_RATE;
    assert data[0..] == data;
  }

  lemma MagicAt(data: seq<byte>, pos: nat)
    requires pos + HEADER <= |data|
    ensures Magic(data[pos..]) <==> data[pos..pos + 4] == MAGIC
  {
    var four := data[pos..pos + 4];
    assert four == [four[0], four[1], four[2], four[3]];
  }

  method ScanPages(data: seq<byte>) returns (total: int, ghost visited: seq<Hit>)
    ensures visited == Remaining(data, Some(0))
    ensures total == Latest(visited)
  {
    var pos: nat := 0;
    total, visited := 0, [];
    while pos < |data| && |data| - pos >= HEADER
      invariant total == Latest(visited)
      invariant Remaining(data, Some(0)) == visited + Remaining(data, Some(pos))
      decreases |data| - pos
    {
      MagicAt(data, pos);
      if data[pos..pos + 4] != MAGIC {
        NoPageHere(data, pos);
        pos := pos + HEADER - 26;
        continue;
      }
      var granule, next := ReadPage(data, pos);
      if granule > total { total := granule; }
      LatestSnoc(visited, Hit(pos, granule));
      HitsAssociate(visited, Hit(pos, granule), Remaining(data, next));
      visited := visited + [Hit(pos, granule)];
      if next.None? { return; }
      pos := next.value;
    }
    NoPageHere(data, pos);
  }

  // ---------- Well-formed files ----------

  /** A complete page: the capture pattern, and a segment table that accounts for every byte after it. */
  ghost predicate IsPage(b: seq<byte>) {
    && |b| >= HEADER && Magic(b) && HEADER + b[26] <= |b|
    && |b| == HEADER + b[26] + Sum(b[HEADER..HEADER + b[26]])
  }

  /** Bytes that are no page, then a page, and so on; at the end only bytes that are no page. */
  datatype File = End(junk: seq<byte>) | Block(junk: seq<byte>, page: seq<byte>, more: File)

  ghost predicate AllPages(file: File) {
    file.Block? ==> IsPage(file.page) && AllPages(file.more)
  }

  ghost function Layout(file: File): seq<byte> {
    match file
    case End(junk) => junk
    case Block(junk, page, more) => junk + (page + Layout(more))
  }

  /** No position among the first k reads as the start of a page. */
  ghost predicate NoPageIn(d: seq<byte>, k: nat)
    requires k <= |d|
  {
    forall i :: 0 <= i < k ==> !Magic(d[i..])
  }

  ghost predicate Clean(file: File) {
    NoPageIn(Layout(file), |file.junk|) && (file.Block? ==> Clean(file.more))
  }

  /** The pages of the file, at the positions where they start. */
  ghost function PageStarts(file: File, at: nat): seq<Hit>
    requires AllPages(file)
  {
    match file
    case End(_) => []
    case Block(junk, page, more) => [Hit(at + |junk|, GranuleOf(page))] + PageStarts(more, at + |junk| + |page|)
  }

  lemma {:induction false} SkipJunk(d: seq<byte>, at: nat, k: nat)
    requires k <= |d| && NoPageIn(d, k)
    requires k == |d| || |d| - k >= HEADER
    ensures Hits(d, at) == Hits(d[k..], at + k)
    decreases k
  {
    if k == 0 {
      assert d[0..] == d;
    } else if |d| >= HEADER {
      assert d[0..] == d;
      forall i | 0 <= i < k - 1 ensures !Magic(d[1..][i..]) {
        assert d[1..][i..] == d[i + 1..];
      }
      SkipJunk(d[1..], at + 1, k - 1);
      assert d[1..][k - 1..] == d[k..];
    }
  }

  lemma JunkThen(d: seq<byte>, junk: seq<byte>, body: seq<byte>, at: nat)
    requires d == junk + body && |body| >= HEADER && NoPageIn(d, |junk|)
    ensures Hits(d, at) == Hits(body, at + |junk|)
  {
    SkipJunk(d, at, |junk|);
    assert d[|junk|..] == body;
  }

  lemma PageHit(page: seq<byte>, rest: seq<byte>, at: nat)
    requires IsPage(page)
    ensures Hits(page + rest, at) == [Hit(at, GranuleOf(page))] + Hits(rest, at + |page|)
  {
    var d := page + rest;
    var table := HEADER + page[26];
    assert d[6..14] == page[6..14];
    assert d[HEADER..table] == page[HEADER..table];
    assert d[|page|..] == rest;
  }

  /**
   On a file of complete pages, with any junk before, between and after them
   in which no page start can be read, the scan stops at exactly the pages.
   */
  lemma {:induction false} ScanFindsPages(file: File, at: nat)
    requires AllPages(file) && Clean(file)
    ensures Hits(Layout(file), at) == PageStarts(file, at)
    decreases file
  {
    match file
    case End(junk) => SkipJunk(junk, at, |junk|);
    case Block(junk, page, more) =>
      ScanFirst(Layout(file), junk, page, Layout(more), at);
      ScanFindsPages(more, at + |junk| + |page|);
  }

  lemma ScanFirst(d: seq<byte>, junk: seq<byte>, page: seq<byte>, rest: seq<byte>, at: nat)
    requires d == junk + (page + rest) && IsPage(page) && NoPageIn(d, |junk|)
    ensures Hits(d, at) == [Hit(at + |junk|, GranuleOf(page))] + Hits(rest, at + |junk| + |page|)
  {
    JunkThen(d, junk, page + rest, at);
    PageHit(page, rest, at + |junk|);
  }

  // ---------- Encoded pages ----------

  /** The fields of a page; flags and the bytes between granule and segment count are arbitrary. */
  datatype Page = Page(flags: seq<byte>, granule: int, middle: seq<byte>, segments: seq<byte>, body: seq<byte>)

  ghost predicate WellFormed(p: Page) {
    |p.flags| == 2 && -TWO_63 <= p.granule < TWO_63 && |p.middle| == 12 && |p.segments| < 256 && |p.body| == Sum(p.segments)
  }

  ghost function PageBytes(p: Page): seq<byte>
    requires WellFormed(p)
  {
    MAGIC + (p.flags + (ToBytes(Unsigned(p.granule), 8) + (p.middle + ([|p.segments|] + (p.segments + p.body)))))
  }

  /** Every page encoded by the standard's layout is one the scan recognises, and its granule position reads back. */
  lemma EncodedPage(p: Page)
    requires WellFormed(p)
    ensures IsPage(PageBytes(p)) && GranuleOf(PageBytes(p)) == p.granule
  {
    var b := PageBytes(p);
    HeaderFields(p);
    assert b[HEADER..HEADER + b[26]] == p.segments;
    GranuleRead(b, p.granule);
  }

  lemma HeaderFields(p: Page)
    requires WellFormed(p)
    ensures var b := PageBytes(p);
            && |b| == HEADER + |p.segments| + |p.body| && Magic(b) && b[6..14] == ToBytes(Unsigned(p.granule), 8)
            && b[26] == |p.segments| && b[HEADER..HEADER + |p.segments|] == p.segments
  {
    var g := ToBytes(Unsigned(p.granule), 8);
    var afterCount := p.segments + p.body;
    var afterMiddle := [|p.segments|] + afterCount;
    var afterGranule := p.middle + afterMiddle;
    var b := PageBytes(p);
    assert b[6..] == g + afterGranule;
    Fields(b, g, p.middle, |p.segments|, p.segments, p.body);
  }

  lemma Fields(b: seq<byte>, g: seq<byte>, middle: seq<byte>, count: byte, segments: seq<byte>, body: seq<byte>)
    requires |b| >= 6 && |g| == 8 && |middle| == 12
    requires b[6..] == g + (middle + ([count] + (segments + body)))
    ensures |b| == HEADER + |segments| + |body| && b[6..14] == g && b[26] == count && b[HEADER..HEADER + |segments|] == segments
  {
    Peel(b, 6, g, middle + ([count] + (segments + body)));
    Peel(b, 14, middle, [count] + (segments + body));
    Peel(b, 26, [count], segments + body);
    Peel(b, HEADER, segments, body);
    assert b[26..27][0] == count;
  }

  lemma Peel(b: seq<byte>, i: nat, field: seq<byte>, rest: seq<byte>)
    requires i <= |b| && b[i..] == field + rest
    ensures |b| == i + |field| + |rest| && b[i..i + |field|] == field && b[i + |field|..] == rest
  {
    assert b[i..i + |field|] == b[i..][..|field|];
    assert b[i + |field|..] == b[i..][|field|..];
  }

  lemma GranuleRead(d: seq<byte>, g: int)
    requires |d| >= HEADER && -TWO_63 <= g < TWO_63 && d[6..14] == ToBytes(Unsigned(g), 8)
    ensures GranuleOf(d) == g
  {
    assert Pow256(8) == TWO_64 by {
      assert Pow256(2) == 0x1_0000 && Pow256(4) == 0x1_0000_0000;
      assert Pow256(6) == 0x1_0000_0000_0000;
    }
    BytesRoundTrip(Unsigned(g), 8);
  }
}
