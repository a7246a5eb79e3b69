/**
 * The poster strip generator: it selects the image files of the poster
 * directory, sorts them, cuts the list into chunks of eight and lays each
 * chunk out as one horizontal strip of resized posters separated by a fixed
 * spacing.
 *
 * Image decoding, RGB conversion, the floating-point resize and saving the
 * strips are PIL work: each poster's resized width is an input
 * (`resizedWidth`), and a strip is described by its size and the places at
 * which the posters are pasted.
 */
module PosterStrip {
  import opened Basics

  const PosterDir: string := "posters"
  /** Declared by the script but never read by it. */
  const Strips: nat := 3
  const PostersPerStrip: nat := 8
  const ResizeHeight: nat := 200
  const Spacing: nat := 5

  /* ---------------- Selecting the image files ---------------- */

  predicate EndsWith(name: string, suffix: string)
  {
    |suffix| <= |name| && name[|name| - |suffix|..] == suffix
  }

  /** The extension test of the file-list comprehension. */
  predicate IsImageFile(name: string)
  {
    EndsWith(name, ".png") || EndsWith(name, ".jpg") || EndsWith(name, ".jpeg")
  }

  /** The directory entries that pass the extension test, in listing order. */
  function ImageNames(listing: seq<string>): (r: seq<string>)
    ensures forall x :: multiset(r)[x] == if IsImageFile(x) then multiset(listing)[x] else 0
  {
    if listing == [] then []
    else
      assert listing == [listing[0]] + listing[1..];
      (if IsImageFile(listing[0]) then [listing[0]] else []) + ImageNames(listing[1..])
  }

  /** Python's `<=` on strings: code point by code point, a proper prefix first. */
  predicate StrLessEq(a: string, b: string)
  {
    if a == [] then true
    else if b == [] then false
    else a[0] < b[0] || (a[0] == b[0] && StrLessEq(a[1..], b[1..]))
  }

  lemma {:induction false} StrLessEqTotal(a: string, b: string)
    ensures StrLessEq(a, b) || StrLessEq(b, a)
  {
    if a != [] && b != [] && a[0] == b[0] {
      StrLessEqTotal(a[1..], b[1..]);
    }
  }

  lemma {:induction false} StrLessEqTransitive(a: string, b: string, c: string)
    requires StrLessEq(a, b) && StrLessEq(b, c)
    ensures StrLessEq(a, c)
  {
    if a != [] && b != [] && c != [] && a[0] == b[0] && b[0] == c[0] {
      StrLessEqTransitive(a[1..], b[1..], c[1..]);
    }
  }

  ghost predicate Sorted(s: seq<string>)
  {
    forall i, j :: 0 <= i < j < |s| ==> StrLessEq(s[i], s[j])
  }

  function Insert(x: string, s: seq<string>): seq<string>
  {
    if s == [] then [x]
    else if StrLessEq(x, s[0]) then [x] + s
    else [s[0]] + Insert(x, s[1..])
  }

  /** The result of Python's `sorted` on a list of strings. */
  function Sort(s: seq<string>): seq<string>
  {
    if s == [] then [] else Insert(s[0], Sort(s[1..]))
  }

  lemma {:induction false} InsertSorted(x: string, s: seq<string>)
    requires Sorted(s)
    ensures Sorted(Insert(x, s))
    ensures multiset(Insert(x, s)) == multiset(s) + multiset{x}
  {
    if s == [] {
    } else if StrLessEq(x, s[0]) {
      forall j | 0 <= j < |s| ensures StrLessEq(x, s[j]) {
        if j > 0 { StrLessEqTransitive(x, s[0], s[j]); }
      }
      assert s == [s[0]] + s[1..];
    } else {
      StrLessEqTotal(x, s[0]);
      var rest := Insert(x, s[1..]);
      InsertSorted(x, s[1..]);
      forall y | y in rest ensures StrLessEq(s[0], y) {
        assert y in multiset(rest);
        if y != x {
          assert y in multiset(s[1..]);
          var j :| 0 <= j < |s[1..]| && s[1..][j] == y;
          assert s[j + 1] == y;
        }
      }
      assert s == [s[0]] + s[1..];
    }
  }

  lemma {:induction false} SortSorted(s: seq<string>)
    ensures Sorted(Sort(s))
    ensures multiset(Sort(s)) == multiset(s)
  {
    if s != [] {
      SortSorted(s[1..]);
      InsertSorted(s[0], Sort(s[1..]));
      assert s == [s[0]] + s[1..];
    }
  }

  /**
   * `image_files`: the directory entries with an image extension, sorted,
   * each kept as often as the listing holds it.
   */
  function SelectImageFiles(listing: seq<string>): (r: seq<string>)
    ensures Sorted(r)
    ensures forall x :: multiset(r)[x] == if IsImageFile(x) then multiset(listing)[x] else 0
  {
    SortSorted(ImageNames(listing));
    Sort(ImageNames(listing))
  }

  /* ---------------- Chunking ---------------- */

  function Flatten<T>(chunks: seq<seq<T>>): seq<T>
  {
    if chunks == [] then [] else chunks[0] + Flatten(chunks[1..])
  }

  /** The slices `lst[i:i + n]` the generator yields from position `i` on. */
  function ChunksFrom<T>(lst: seq<T>, n: nat, i: nat): seq<seq<T>>
    requires n > 0
    decreases |lst| - i
  {
    if i >= |lst| then [] else [lst[i..Min(i + n, |lst|)]] + ChunksFrom(lst, n, i + n)
  }

  lemma {:induction false} ChunksFromFlatten<T>(lst: seq<T>, n: nat, i: nat)
    requires n > 0 && i <= |lst|
    ensures Flatten(ChunksFrom(lst, n, i)) == lst[i..]
    decreases |lst| - i
  {
    if i < |lst| {
      var chunks, chunk, rest := ChunksFrom(lst, n, i), lst[i..Min(i + n, |lst|)], ChunksFrom(lst, n, i + n);
      assert chunks[0] == chunk && chunks[1..] == rest;
      assert Flatten(chunks) == chunk + Flatten(rest);
      if i + n < |lst| {
        ChunksFromFlatten(lst, n, i + n);
        assert chunk + lst[i + n..] == lst[i..];
      } else {
        assert rest == [];
        assert chunk == lst[i..];
      }
    }
  }

  lemma {:induction false} ChunksFromSizes<T>(lst: seq<T>, n: nat, i: nat)
    requires n > 0
    ensures forall k :: 0 <= k < |ChunksFrom(lst, n, i)| ==> 0 < |ChunksFrom(lst, n, i)[k]| <= n
    ensures forall k :: 0 <= k < |ChunksFrom(lst, n, i)| - 1 ==> |ChunksFrom(lst, n, i)[k]| == n
    decreases |lst| - i
  {
    if i < |lst| {
      var chunks := ChunksFrom(lst, n, i);
      var rest := ChunksFrom(lst, n, i + n);
      ChunksFromSizes(lst, n, i + n);
      assert chunks[1..] == rest;
      if i + n >= |lst| {
        assert rest == [];
      }
      forall k | 0 <= k < |chunks|
        ensures 0 < |chunks[k]| <= n
        ensures k < |chunks| - 1 ==> |chunks[k]| == n
      {
        if k > 0 { assert chunks[k] == rest[k - 1]; }
      }
    }
  }

  lemma {:induction false} ChunksFromCount<T>(lst: seq<T>, n: nat, i: nat)
    requires n > 0 && i <= |lst|
    ensures |ChunksFrom(lst, n, i)| == (|lst| - i + n - 1) / n
    decreases |lst| - i
  {
    var m := |lst| - i;
    if i == |lst| {
      DivisionBelow(n - 1, n);
    } else if i + n >= |lst| {
      assert ChunksFrom(lst, n, i + n) == [];
      DivisionBelow(m - 1, n);
      DivisionShift(m - 1, n);
    } else {
      ChunksFromCount(lst, n, i + n);
      DivisionShift(m - 1, n);
    }
  }

  lemma DivisionBelow(a: nat, n: nat)
    requires a < n
    ensures a / n == 0
  {
  }

  lemma DivisionShift(a: nat, n: nat)
    requires n > 0
    ensures (a + n) / n == a / n + 1
  {
    var q, r := a / n, a % n;
    assert a == q * n + r && 0 <= r < n;
    assert a + n == (q + 1) * n + r;
    DivisionUnique(a + n, n, q + 1, r);
  }

  lemma DivisionUnique(a: nat, n: nat, q: nat, r: nat)
    requires n > 0 && r < n && a == q * n + r
    ensures a / n == q
  {
    var q', r' := a / n, a % n;
    assert a == q' * n + r' && r' < n;
    if q' < q {
      MulStrict(q', q, n);
      assert false;
    } else if q' > q {
      MulStrict(q, q', n);
      assert false;
    }
  }

  lemma {:induction false} MulStrict(x: nat, y: nat, n: nat)
    requires x < y
    ensures x * n + n <= y * n
    decreases y - x
  {
    assert (x + 1) * n == x * n + n;
    if x + 1 < y {
      MulStrict(x + 1, y, n);
    }
  }

  /**
   * `list(chunkify(lst, n))`. A zero step makes `range` raise ValueError
   * (`None`); a negative step makes the range empty, so no chunk is yielded.
   */
  function Chunkify<T>(lst: seq<T>, n: int): (r: Option<seq<seq<T>>>)
    ensures r.None? <==> n == 0
    ensures n < 0 ==> r == Some([])
    ensures n > 0 ==> r.Some? && Flatten(r.value) == lst
    ensures n > 0 ==> |r.value| == (|lst| + n - 1) / n
    ensures n > 0 ==> forall k :: 0 <= k < |r.value| ==> 0 < |r.value[k]| <= n
    ensures n > 0 ==> forall k :: 0 <= k < |r.value| - 1 ==> |r.value[k]| == n
  {
    if n == 0 then None
    else if n < 0 then Some([])
    else
      ChunksFromFlatten(lst, n, 0);
      ChunksFromSizes(lst, n, 0);
      ChunksFromCount(lst, n, 0);
      Some(ChunksFrom(lst, n, 0))
  }

  /* ---------------- Strip geometry ---------------- */

  /** A poster after resizing. */
  datatype Image = Image(file: string, width: nat, height: nat)

  /** One `strip.paste(img, (x, y))`. */
  datatype Placement = Placement(image: Image, x: int, y: int)

  /** A generated strip: its size and the posters pasted onto it, in order. */
  datatype Strip = Strip(width: int, height: nat, placements: seq<Placement>)

  function Widths(images: seq<Image>): seq<nat>
  {
    seq(|images|, k requires 0 <= k < |images| => images[k].width)
  }

  function Sum(ws: seq<nat>): nat
  {
    if ws == [] then 0 else Sum(ws[..|ws| - 1]) + ws[|ws| - 1]
  }

  /** `sum(widths) + SPACING * (len(images) - 1)`. */
  function TotalWidth(ws: seq<nat>): int
  {
    Sum(ws) + Spacing * (|ws| - 1)
  }

  /** Where the k-th poster goes: the widths before it plus one spacing per poster before it. */
  function Offset(ws: seq<nat>, k: nat): int
    requires k <= |ws|
  {
    Sum(ws[..k]) + Spacing * k
  }

  /** The strip a chunk of resized posters produces, stated in closed form. */
  function Layout(images: seq<Image>): Strip
  {
    var ws := Widths(images);
    Strip(TotalWidth(ws), ResizeHeight,
          seq(|images|, k requires 0 <= k < |images| => Placement(images[k], Offset(ws, k), 0)))
  }

  lemma OffsetStep(ws: seq<nat>, k: nat)
    requires k < |ws|
    ensures Offset(ws, k + 1) == Offset(ws, k) + ws[k] + Spacing
  {
    assert ws[..k + 1][..k] == ws[..k];
  }

  lemma {:induction false} OffsetsApart(ws: seq<nat>, i: nat, j: nat)
    requires i < j < |ws|
    ensures Offset(ws, i) + ws[i] + Spacing <= Offset(ws, j)
    decreases j - i
  {
    OffsetStep(ws, i);
    if i + 1 < j {
      OffsetsApart(ws, i + 1, j);
      OffsetStep(ws, i + 1);
    }
  }

  /**
   * The geometry of a strip: its width is the posters' widths plus one
   * spacing between neighbours, the posters are pasted left to right without
   * overlapping, the first at 0, and the last one ends exactly at the strip's
   * right edge.
   */
  lemma StripGeometry(images: seq<Image>)
    requires |images| > 0
    ensures var s := Layout(images); var n := |images|;
      && s.width == Sum(Widths(images)) + Spacing * (n - 1)
      && s.width >= 0
      && |s.placements| == n
      && s.placements[0].x == 0
      && (forall i, j :: 0 <= i < j < n ==> s.placements[i].x + images[i].width < s.placements[j].x)
      && s.placements[n - 1].x + images[n - 1].width == s.width
  {
    var ws := Widths(images);
    var n := |images|;
    forall i, j | 0 <= i < j < n
      ensures Layout(images).placements[i].x + images[i].width < Layout(images).placements[j].x
    {
      OffsetsApart(ws, i, j);
    }
    assert ws[..n - 1] == ws[..|ws| - 1];
    assert ws[..n] == ws;
  }

  /** The part of `StripGeometry` a whole run of the generator relies on. */
  lemma StripBounds(images: seq<Image>)
    requires |images| > 0
    ensures |Layout(images).placements| == |images| && Layout(images).width >= 0
  {
    StripGeometry(images);
  }

  /* ---------------- The per-strip loops ---------------- */

  /** The posters of a chunk after resizing to the common height. */
  function Resized(files: seq<string>, resizedWidth: string -> nat): seq<Image>
  {
    seq(|files|, k requires 0 <= k < |files| => Image(files[k], resizedWidth(files[k]), ResizeHeight))
  }

  /** The `images` loop: open, convert and resize each file of the chunk, appending in order. */
  method LoadImages(chunk: seq<string>, resizedWidth: string -> nat) returns (images: seq<Image>)
    ensures images == Resized(chunk, resizedWidth)
  {
    images := [];
    for k := 0 to |chunk|
      invariant |images| == k
      invariant forall j :: 0 <= j < k ==> images[j] == Image(chunk[j], resizedWidth(chunk[j]), ResizeHeight)
    {
      images := images + [Image(chunk[k], resizedWidth(chunk[k]), ResizeHeight)];
    }
  }

  /** The paste loop: `x_offset` starts at 0 and advances by each width plus the spacing. */
  method ComposeStrip(images: seq<Image>) returns (strip: Strip)
    ensures strip == Layout(images)
  {
    var ws := Widths(images);
    var totalWidth := Sum(ws) + Spacing * (|images| - 1);
    var placements: seq<Placement> := [];
    var xOffset := 0;
    for k := 0 to |images|
      invariant xOffset == Offset(ws, k)
      invariant |placements| == k
      invariant forall j :: 0 <= j < k ==> placements[j] == Placement(images[j], Offset(ws, j), 0)
    {
      placements := placements + [Placement(images[k], xOffset, 0)];
      OffsetStep(ws, k);
      xOffset := xOffset + images[k].width + Spacing;
    }
    strip := Strip(totalWidth, ResizeHeight, placements);
  }

  /** The loop over the chunks: one strip per chunk, in chunk order. */
  method ComposeChunks(chunks: seq<seq<string>>, resizedWidth: string -> nat) returns (strips: seq<Strip>)
    ensures |strips| == |chunks|
    ensures forall k :: 0 <= k < |chunks| ==> strips[k] == Layout(Resized(chunks[k], resizedWidth))
  {
    strips := [];
    for idx := 0 to |chunks|
      invariant |strips| == idx
      invariant forall k :: 0 <= k < idx ==> strips[k] == Layout(Resized(chunks[k], resizedWidth))
    {
      var images := LoadImages(chunks[idx], resizedWidth);
      var strip := ComposeStrip(images);
      strips := strips + [strip];
    }
  }

  /**
   * The whole script: select and sort the files, chunk them by eight and
   * build one strip per chunk; `strips[k]` is the one saved as
   * `strip{k + 1}.png`.
   */
  method GenerateStrips(listing: seq<string>, resizedWidth: string -> nat) returns (strips: seq<Strip>)
    ensures var files := SelectImageFiles(listing);
      var chunks := Chunkify(files, PostersPerStrip).value;
      && |strips| == |chunks| == (|files| + PostersPerStrip - 1) / PostersPerStrip
      && Flatten(chunks) == files
      && forall k :: 0 <= k < |strips| ==>
           && strips[k] == Layout(Resized(chunks[k], resizedWidth))
           && 0 < |strips[k].placements| <= PostersPerStrip
           && strips[k].width >= 0
  {
    var imageFiles := SelectImageFiles(listing);
    var chunks := Chunkify(imageFiles, PostersPerStrip).value;
    strips := ComposeChunks(chunks, resizedWidth);
    forall k | 0 <= k < |strips|
      ensures 0 < |strips[k].placements| <= PostersPerStrip && strips[k].width >= 0
    {
      StripBounds(Resized(chunks[k], resizedWidth));
    }
  }
}
