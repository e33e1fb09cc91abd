/**
 * Day 8 of 2019: the space image format. The input is a string of digits,
 * cut into layers of `width * height` pixels; the checksum comes from the
 * layer with the fewest zeros, and the picture is the layers stacked with
 * 2 as transparent.
 */
module Day8 {
  import opened Common

  datatype ErrorCode = FileParseFailure

  /** `usize::MAX`, the starting value of the fewest-zeros search. */
  const USIZE_MAX: int := U64_MAX

  // =====================================================================
  // Parsing
  // =====================================================================

  /** The digit values of a string of decimal digits. */
  function DigitValues(s: string): (ds: seq<nat>)
    requires AllDigits(s)
    ensures |ds| == |s|
    ensures forall i :: 0 <= i < |s| ==> ds[i] == DigitValue(s[i]) && ds[i] < 10
  {
    seq(|s|, i requires 0 <= i < |s| => DigitValue(s[i]))
  }

  /** `chunks_exact(n)`: consecutive pieces of exactly `n` elements; a shorter tail is dropped. */
  function Chunks(s: seq<nat>, n: nat): seq<seq<nat>>
    requires n > 0
    decreases |s|
  {
    if |s| < n then [] else [s[..n]] + Chunks(s[n..], n)
  }

  /** Only whole chunks are kept: fewer than `n` elements are left over. */
  lemma {:induction false} ChunksCount(s: seq<nat>, n: nat)
    requires n > 0
    ensures |Chunks(s, n)| * n <= |s| < (|Chunks(s, n)| + 1) * n
    decreases |s|
  {
    if |s| >= n {
      var rest := s[n..];
      ChunksCount(rest, n);
      var m := |Chunks(rest, n)|;
      assert |Chunks(s, n)| == m + 1;
      assert (m + 1) * n == m * n + n;
      assert (m + 2) * n == (m + 1) * n + n;
    }
  }

  /** Where chunk `i` of size `n` starts. */
  function Offset(i: nat, n: nat): nat
  {
    i * n
  }

  /** Chunk `i` is the `i`-th run of `n` elements. */
  lemma {:induction false} ChunkAt(s: seq<nat>, n: nat, i: nat)
    requires n > 0 && i < |Chunks(s, n)|
    ensures Offset(i, n) + n <= |s| && Chunks(s, n)[i] == s[Offset(i, n)..Offset(i, n) + n]
    decreases i
  {
    var rest := s[n..];
    assert Chunks(s, n) == [s[..n]] + Chunks(rest, n);
    if i > 0 {
      ChunkAt(rest, n, i - 1);
      var o := Offset(i - 1, n);
      assert Offset(i, n) == o + n by {
        assert i * n == (i - 1) * n + n;
      }
      assert Chunks(s, n)[i] == rest[o..o + n];
      assert rest[o..o + n] == s[o + n..o + n + n];
    } else {
      assert Offset(0, n) == 0;
    }
  }

  /** A character that `ch.to_string().parse::<u8>()` accepts is a decimal digit, and only those. */
  lemma SingleCharParse(c: char)
    ensures ParseInteger([c], false, 0, 255).Some? <==> IsDigit(c)
    ensures IsDigit(c) ==> ParseInteger([c], false, 0, 255) == Some(DigitValue(c))
  {
    assert [c][1..] == [];
    if IsDigit(c) {
      assert DigitsValue([c]) == DigitsValue([c][..0]) * 10 + DigitValue(c);
    }
  }

  /** What `parse_image_layers` returns. */
  function ImageLayers(width: nat, height: nat, input: string): Result<seq<seq<nat>>, ErrorCode>
    requires width * height > 0 || !AllDigits(input)
  {
    if AllDigits(input) then Ok(Chunks(DigitValues(input), width * height)) else Err(FileParseFailure)
  }

  /**
   * `parse_image_layers`: every character must be a digit; the digits are
   * then cut into layers of `width * height`. (`chunks_exact` panics on a
   * zero chunk size, so both dimensions must be positive once every
   * character is a digit; a non-digit is reported before the cut.)
   */
  method ParseImageLayers(width: nat, height: nat, input: string) returns (r: Result<seq<seq<nat>>, ErrorCode>)
    requires width * height > 0 || !AllDigits(input)
    ensures r == ImageLayers(width, height, input)
  {
    var allBytes: seq<nat> := [];
    var i := 0;
    while i < |input|
      invariant 0 <= i <= |input|
      invariant AllDigits(input[..i])
      invariant allBytes == DigitValues(input[..i])
    {
      var parsed := ParseInteger([input[i]], false, 0, 255);
      SingleCharParse(input[i]);
      if parsed.None? {
        assert !AllDigits(input) by {
          assert !IsDigit(input[i]);
        }
        return Err(FileParseFailure);
      }
      allBytes := allBytes + [parsed.value];
      assert input[..i + 1] == input[..i] + [input[i]];
      i := i + 1;
    }
    assert input[..i] == input;
    r := Ok(Chunks(allBytes, width * height));
  }

  /** The parse rejects exactly the inputs with a non-digit character. */
  lemma ImageLayersRejects(width: nat, height: nat, input: string)
    requires width * height > 0 || !AllDigits(input)
    ensures ImageLayers(width, height, input).Err? <==> exists i :: 0 <= i < |input| && !IsDigit(input[i])
  {
  }

  /** An accepted input yields `len / (width * height)` layers. */
  lemma ImageLayersCount(width: nat, height: nat, input: string)
    requires width * height > 0 || !AllDigits(input)
    ensures var r := ImageLayers(width, height, input);
      r.Ok? ==> |r.value| * (width * height) <= |input| < (|r.value| + 1) * (width * height)
  {
    if AllDigits(input) {
      ChunksCount(DigitValues(input), width * height);
    }
  }

  /** Layer `l` is the `l`-th run of `n` values of `ds`. */
  predicate CutInto(layers: seq<seq<nat>>, ds: seq<nat>, n: nat)
  {
    forall l :: 0 <= l < |layers| ==> Offset(l, n) + n <= |ds| && layers[l] == ds[Offset(l, n)..Offset(l, n) + n]
  }

  lemma ChunksCut(s: seq<nat>, n: nat)
    requires n > 0
    ensures CutInto(Chunks(s, n), s, n)
  {
    forall l | 0 <= l < |Chunks(s, n)|
      ensures Offset(l, n) + n <= |s| && Chunks(s, n)[l] == s[Offset(l, n)..Offset(l, n) + n]
    {
      ChunkAt(s, n, l);
    }
  }

  /** The layers are the input's digit values cut into runs of `width * height`. */
  lemma ImageLayersPixels(width: nat, height: nat, input: string)
    requires width * height > 0 || !AllDigits(input)
    ensures var r := ImageLayers(width, height, input);
      r.Ok? ==> CutInto(r.value, DigitValues(input), width * height)
  {
    if AllDigits(input) {
      ChunksCut(DigitValues(input), width * height);
    }
  }

  // =====================================================================
  // Counting colours
  // =====================================================================

  /** How many pixels of the layer have colour `d`. */
  function Occurrences(layer: seq<nat>, d: nat): nat
  {
    multiset(layer)[d]
  }

  /** `count_colors`: a tally per digit; every pixel is a digit, as the parser guarantees. */
  method CountColors(layer: seq<nat>) returns (colors: seq<nat>)
    requires forall i :: 0 <= i < |layer| ==> layer[i] < 10
    ensures |colors| == 10
    ensures forall d :: 0 <= d < 10 ==> colors[d] == Occurrences(layer, d)
  {
    var tally := new nat[10](_ => 0);
    var i := 0;
    while i < |layer|
      invariant 0 <= i <= |layer|
      invariant forall d :: 0 <= d < 10 ==> tally[d] == multiset(layer[..i])[d]
    {
      assert layer[..i + 1] == layer[..i] + [layer[i]];
      tally[layer[i]] := tally[layer[i]] + 1;
      i := i + 1;
    }
    assert layer[..i] == layer;
    colors := tally[..];
  }

  // =====================================================================
  // The checksum
  // =====================================================================

  /** Layer `k` has the fewest zeros, and every earlier layer has strictly more. */
  predicate FirstFewestZeros(layers: seq<seq<nat>>, k: nat)
  {
    k < |layers|
    && (forall j :: 0 <= j < |layers| ==> Occurrences(layers[k], 0) <= Occurrences(layers[j], 0))
    && (forall j :: 0 <= j < k ==> Occurrences(layers[k], 0) < Occurrences(layers[j], 0))
  }

  function Checksum(layer: seq<nat>): nat
  {
    Occurrences(layer, 1) * Occurrences(layer, 2)
  }

  /**
   * The selection loop in `main`: the 1s times the 2s of the first layer with
   * the fewest zeros, or 0 when there are no layers. A layer replaces the
   * current choice only with strictly fewer zeros, starting from
   * `usize::MAX`, which no layer that fits in memory reaches.
   */
  method FewestZerosChecksum(layers: seq<seq<nat>>) returns (oneTimesTwo: nat)
    requires forall l :: 0 <= l < |layers| ==> forall i :: 0 <= i < |layers[l]| ==> layers[l][i] < 10
    requires forall l :: 0 <= l < |layers| ==> |layers[l]| < USIZE_MAX
    ensures |layers| == 0 ==> oneTimesTwo == 0
    ensures |layers| > 0 ==> exists k: nat :: FirstFewestZeros(layers, k) && oneTimesTwo == Checksum(layers[k])
  {
    var leastZeros: int := USIZE_MAX;
    oneTimesTwo := 0;
    ghost var k: nat := 0;
    var i := 0;
    while i < |layers|
      invariant 0 <= i <= |layers| && Selected(layers[..i], k, leastZeros, oneTimesTwo)
    {
      k, leastZeros, oneTimesTwo := ConsiderLayer(layers, i, k, leastZeros, oneTimesTwo);
      i := i + 1;
    }
    assert layers[..i] == layers;
  }

  /** The state of the selection loop after the layers `seen`. */
  predicate Selected(seen: seq<seq<nat>>, k: nat, leastZeros: int, oneTimesTwo: nat)
  {
    if |seen| == 0 then leastZeros == USIZE_MAX && oneTimesTwo == 0
    else FirstFewestZeros(seen, k) && leastZeros == Occurrences(seen[k], 0) && oneTimesTwo == Checksum(seen[k])
  }

  /** One round of the selection loop, on layer `i`. */
  method ConsiderLayer(layers: seq<seq<nat>>, i: nat, ghost k: nat, leastZeros: int, oneTimesTwo: nat)
    returns (ghost k': nat, leastZeros': int, oneTimesTwo': nat)
    requires i < |layers| && Selected(layers[..i], k, leastZeros, oneTimesTwo)
    requires forall p :: 0 <= p < |layers[i]| ==> layers[i][p] < 10
    requires |layers[i]| < USIZE_MAX
    ensures Selected(layers[..i + 1], k', leastZeros', oneTimesTwo')
  {
    var colors := CountColors(layers[i]);
    OccurrencesBound(layers[i], 0);
    if i == 0 {
      FirstLayerFewest(layers);
    } else {
      FewestStep(layers, i, k);
    }
    assert layers[..i + 1][..i] == layers[..i];
    k', leastZeros', oneTimesTwo' := k, leastZeros, oneTimesTwo;
    if colors[0] < leastZeros {
      leastZeros' := colors[0];
      oneTimesTwo' := colors[1] * colors[2];
      k' := i;
    }
  }

  lemma OccurrencesBound(layer: seq<nat>, d: nat)
    ensures Occurrences(layer, d) <= |layer|
  {
    assert multiset(layer)[d] <= |multiset(layer)|;
  }

  lemma FirstLayerFewest(layers: seq<seq<nat>>)
    requires |layers| > 0
    ensures FirstFewestZeros(layers[..1], 0)
  {
    assert layers[..1][0] == layers[0];
  }

  /** The next layer takes over the choice exactly when it has strictly fewer zeros. */
  lemma FewestStep(layers: seq<seq<nat>>, i: nat, k: nat)
    requires 0 < i < |layers| && FirstFewestZeros(layers[..i], k)
    ensures Occurrences(layers[i], 0) < Occurrences(layers[k], 0) ==> FirstFewestZeros(layers[..i + 1], i)
    ensures Occurrences(layers[i], 0) >= Occurrences(layers[k], 0) ==> FirstFewestZeros(layers[..i + 1], k)
  {
    var pre, post := layers[..i], layers[..i + 1];
    assert forall j :: 0 <= j < i ==> post[j] == pre[j];
    assert post[i] == layers[i];
    assert pre[k] == layers[k];
  }

  // =====================================================================
  // Compositing
  // =====================================================================

  /** One step of the fold: a layer laid over the image; 0 and 1 cover, 2 lets the image through, anything else panics. */
  function Over(layer: seq<nat>, img: seq<nat>): (r: Option<seq<nat>>)
    requires |layer| >= |img|
    ensures r.Some? <==> forall i :: 0 <= i < |img| ==> layer[i] <= 2
    ensures r.Some? ==>
      (|r.value| == |img|
       && forall i :: 0 <= i < |img| ==> r.value[i] == (if layer[i] == 2 then img[i] else layer[i]))
  {
    if forall i :: 0 <= i < |img| ==> layer[i] <= 2 then
      Some(seq(|img|, i requires 0 <= i < |img| => if layer[i] == 2 then img[i] else layer[i]))
    else None
  }

  /**
   * The fold over the layers from the last to the first, starting from an
   * image of 255s; `None` is the panic on a pixel other than 0, 1 or 2.
   */
  function Decode(layers: seq<seq<nat>>, size: nat): (r: Option<seq<nat>>)
    requires forall l :: 0 <= l < |layers| ==> |layers[l]| == size
    ensures r.Some? ==> |r.value| == size
  {
    if |layers| == 0 then Some(seq(size, _ => 255))
    else match Decode(layers[1..], size)
      case None => None
      case Some(img) => Over(layers[0], img)
  }

  /** The colour a pixel shows: the first layer, from the top, that is not transparent there, else 255. */
  function Visible(layers: seq<seq<nat>>, i: nat): nat
    requires forall l :: 0 <= l < |layers| ==> i < |layers[l]|
  {
    if |layers| == 0 then 255
    else if layers[0][i] != 2 then layers[0][i]
    else Visible(layers[1..], i)
  }

  /** No layer has a pixel outside 0, 1 and 2. */
  predicate AllColours(layers: seq<seq<nat>>)
  {
    forall l, i :: 0 <= l < |layers| && 0 <= i < |layers[l]| ==> layers[l][i] <= 2
  }

  /** The fold panics exactly on a bad pixel, and otherwise shows every pixel's top non-transparent colour. */
  lemma {:induction false} DecodeMeaning(layers: seq<seq<nat>>, size: nat)
    requires forall l :: 0 <= l < |layers| ==> |layers[l]| == size
    ensures Decode(layers, size).Some? <==> AllColours(layers)
    ensures Decode(layers, size).Some? ==>
      |Decode(layers, size).value| == size
      && forall i :: 0 <= i < size ==> Decode(layers, size).value[i] == Visible(layers, i)
  {
    if |layers| > 0 {
      var rest := layers[1..];
      DecodeMeaning(rest, size);
      assert forall l :: 1 <= l < |layers| ==> layers[l] == rest[l - 1];
      if AllColours(rest) {
        var img := Decode(rest, size).value;
        forall i | 0 <= i < size ensures (layers[0][i] == 2 ==> Visible(layers, i) == img[i]) {
        }
      } else {
        var l, i :| 0 <= l < |rest| && 0 <= i < |rest[l]| && rest[l][i] > 2;
        assert layers[l + 1][i] > 2;
      }
    }
  }

  /** A fully transparent stack shows 255 everywhere. */
  lemma TransparentExample()
    ensures Decode([[2, 2]], 2) == Some([255, 255])
  {
    var layers := [[2, 2]];
    DecodeMeaning(layers, 2);
    assert AllColours(layers);
    var img := Decode(layers, 2).value;
    assert img[0] == Visible(layers, 0) == 255 by { assert layers[1..] == []; }
    assert img[1] == Visible(layers, 1) == 255 by { assert layers[1..] == []; }
    assert img == [255, 255];
  }

  /** The top layer covers the one below, except where it is transparent. */
  lemma StackExample()
    ensures Decode([[2, 1], [0, 2]], 2) == Some([0, 1])
  {
    var layers := [[2, 1], [0, 2]];
    DecodeMeaning(layers, 2);
    assert AllColours(layers);
    var img := Decode(layers, 2).value;
    assert layers[1..] == [[0, 2]];
    assert img[0] == Visible(layers, 0) == Visible([[0, 2]], 0) == 0;
    assert img[1] == Visible(layers, 1) == 1;
    assert img == [0, 1];
  }

  /** A pixel other than 0, 1 and 2 makes the fold panic. */
  lemma BadPixelExample()
    ensures Decode([[3, 0]], 2) == None
  {
    var layers := [[3, 0]];
    DecodeMeaning(layers, 2);
    assert layers[0][0] > 2;
  }
}
