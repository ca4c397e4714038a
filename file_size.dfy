/**
 * Human-readable byte counts, as `fileSizeString` renders them in upload
 * descriptions: the count is scaled to the largest binary unit (Bytes, KiB,
 * MiB, GiB) that does not exceed it.
 *
 * The unit index is modelled with exact integer powers of 1024. The decimal
 * rendering of the scaled value (`parseFloat((by / 1024^i).toFixed(dm))`) is a
 * parameter, a `Renderer`, since floating-point formatting is not modelled.
 */
module FileSize {
  import opened Wrappers

  /** The base of the binary units. */
  const K: nat := 1024

  /** The unit labels, indexed by the power of 1024 they stand for. */
  const Units: seq<string> := ["Bytes", "KiB", "MiB", "GiB"]

  /** The decimal places used when the caller gives none. */
  const DefaultDecimals: int := 2

  /**
   * Renders `dividend / divisor` with at most `places` decimal places and
   * trailing zeros dropped: the text of `parseFloat(x.toFixed(places))`.
   */
  type Renderer = (nat, nat, nat) -> string

  function Pow(b: nat, n: nat): nat
  {
    if n == 0 then 1 else b * Pow(b, n - 1)
  }

  lemma {:induction false} PowPositive(n: nat)
    ensures Pow(K, n) >= 1
  {
    if n > 0 {
      PowPositive(n - 1);
    }
  }

  /** Powers of 1024 grow strictly with the exponent. */
  lemma {:induction false} PowStrictlyIncreasing(i: nat, j: nat)
    requires i < j
    ensures Pow(K, i) < Pow(K, j)
  {
    PowPositive(j - 1);
    if i < j - 1 {
      PowStrictlyIncreasing(i, j - 1);
    }
  }

  /** One step of the integer logarithm: bounds on `bytes / 1024` lift to `bytes`. */
  lemma DivideStep(bytes: nat, j: nat)
    requires Pow(K, j) <= bytes / K < Pow(K, j + 1)
    ensures Pow(K, j + 1) <= bytes < Pow(K, j + 2)
  {
    var q, p := bytes / K, Pow(K, j);
    assert bytes == K * q + bytes % K;
    assert K * p <= K * q;
    assert q + 1 <= K * p;
    assert K * (q + 1) <= K * (K * p);
  }

  /**
   * The unit index `i` of a positive byte count: the largest `i` with
   * `1024^i <= bytes`. The scaled value `bytes / 1024^i` therefore lies in [1, 1024).
   */
  function UnitIndex(bytes: nat): (i: nat)
    requires bytes >= 1
    ensures Pow(K, i) <= bytes < Pow(K, i + 1)
    ensures Pow(K, i) <= bytes < K * Pow(K, i)
    decreases bytes
  {
    if bytes < K then 0
    else
      var j := UnitIndex(bytes / K);
      DivideStep(bytes, j);
      j + 1
  }

  /** The unit index is the only exponent whose power range holds `bytes`. */
  lemma UnitIndexUnique(bytes: nat, i: nat)
    requires Pow(K, i) <= bytes < Pow(K, i + 1)
    ensures bytes >= 1 && UnitIndex(bytes) == i
  {
    PowPositive(i);
    var u := UnitIndex(bytes);
    if u + 1 < i {
      PowStrictlyIncreasing(u + 1, i);
    } else if i + 1 < u {
      PowStrictlyIncreasing(i + 1, u);
    }
  }

  /**
   * The label at index `i`, or `None` past the end of the four-entry table;
   * the source does not clamp the index.
   */
  function UnitLabel(i: nat): (l: Option<string>)
    ensures l.Some? <==> i < |Units|
    ensures l.Some? ==> l.value == Units[i]
  {
    if i < |Units| then Some(Units[i]) else None
  }

  /** The text a template literal gives the label: `undefined` when missing. */
  function LabelText(l: Option<string>): string
  {
    match l
    case Some(s) => s
    case None => "undefined"
  }

  /** The number of decimal places: a negative request counts as none. */
  function Decimals(dec: int): (dm: nat)
    ensures dec >= 0 ==> dm == dec
    ensures dec < 0 ==> dm == 0
  {
    if dec < 0 then 0 else dec
  }

  /** `fileSizeString(by, dec)` for a byte count `by`. */
  function FileSizeString(bytes: nat, dec: int, render: Renderer): (s: string)
    ensures bytes == 0 ==> s == "0 Bytes"
  {
    if bytes == 0 then "0 Bytes"
    else
      var i := UnitIndex(bytes);
      render(bytes, Pow(K, i), Decimals(dec)) + " " + LabelText(UnitLabel(i))
  }

  /**
   * Below 1024^4 a positive count is shown in the unit whose power range
   * holds it, scaled by that power, with that unit's label.
   */
  lemma InRangeRendering(bytes: nat, dec: int, render: Renderer, i: nat)
    requires i < |Units|
    requires Pow(K, i) <= bytes < Pow(K, i + 1)
    ensures FileSizeString(bytes, dec, render) == render(bytes, Pow(K, i), Decimals(dec)) + " " + Units[i]
  {
    UnitIndexUnique(bytes, i);
  }

  /**
   * From 1024^4 on the index runs past the label table and the label is
   * rendered as `undefined`; no larger unit exists.
   */
  lemma OutOfRangeRendering(bytes: nat, dec: int, render: Renderer)
    requires bytes >= Pow(K, |Units|)
    ensures bytes >= 1 && UnitIndex(bytes) >= |Units|
    ensures UnitLabel(UnitIndex(bytes)) == None
    ensures FileSizeString(bytes, dec, render) ==
              render(bytes, Pow(K, UnitIndex(bytes)), Decimals(dec)) + " undefined"
  {
    PowPositive(|Units|);
    var i := UnitIndex(bytes);
    if i + 1 < |Units| {
      PowStrictlyIncreasing(i + 1, |Units|);
    }
  }

  /**
   * Worked sizes: 1024 bytes is one KiB, 1536 bytes is 1.5 KiB, and 2^30
   * bytes is one GiB; in each case the renderer is handed the exact quotient.
   */
  lemma WorkedSizes(render: Renderer)
    ensures FileSizeString(1024, DefaultDecimals, render) == render(1024, 1024, 2) + " KiB"
    ensures FileSizeString(1536, 1, render) == render(1536, 1024, 1) + " KiB"
    ensures FileSizeString(1073741824, DefaultDecimals, render) ==
              render(1073741824, 1073741824, 2) + " GiB"
  {
    assert Pow(K, 1) == 1024 && Pow(K, 2) == 1048576;
    assert Pow(K, 3) == 1073741824 && Pow(K, 4) == 1099511627776;
    InRangeRendering(1024, DefaultDecimals, render, 1);
    InRangeRendering(1536, 1, render, 1);
    InRangeRendering(1073741824, DefaultDecimals, render, 3);
  }
}
