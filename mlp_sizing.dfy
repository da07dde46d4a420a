/** The inner-layer sizes of the multi-layer perceptron builder: a central
    layer sized from the inputs and a ratio, inner layers climbing from the
    inputs to the centre in equal integer steps and then from the centre
    towards the outputs. */
module MlpSizing {

  /** Java's integer division, which truncates toward zero. */
  function Quot(a: int, b: int): (q: int)
    requires b > 0
    ensures a >= 0 ==> q >= 0
    ensures a <= 0 ==> q <= 0
  {
    if a >= 0 then a / b else -((-a) / b)
  }

  /** The truncated quotient times the divisor lies between zero and the
      dividend, less than one divisor away from the dividend. */
  lemma QuotBounds(a: int, b: int)
    requires b > 0
    ensures a >= 0 ==> 0 <= Quot(a, b) * b <= a < Quot(a, b) * b + b
    ensures a < 0 ==> Quot(a, b) * b - b < a <= Quot(a, b) * b <= 0
  {
    var n := if a >= 0 then a else -a;
    assert n == (n / b) * b + n % b;
    assert 0 <= n % b < b;
    if a < 0 {
      assert Quot(a, b) * b == -((n / b) * b);
    }
  }

  /** Math.round: the nearest integer, halves rounded up. */
  function Round(x: real): (r: int)
    ensures r as real <= x + 0.5 < r as real + 1.0
  {
    (x + 0.5).Floor
  }

  /** The Java (int) cast of a long: keeps the low 32 bits, as a signed
      number. */
  function ToInt(x: int): (r: int)
    ensures -0x8000_0000 <= r < 0x8000_0000
    ensures -0x8000_0000 <= x < 0x8000_0000 ==> r == x
  {
    (x + 0x8000_0000) % 0x1_0000_0000 - 0x8000_0000
  }

  function Max(a: int, b: int): int {
    if a >= b then a else b
  }

  /** The central layer size: the larger of 2 and the rounded product of
      the input count and the ratio, cast to a 32-bit int. */
  function CenterSize(nOfInputs: int, innerLayerRatio: real): (c: int)
    ensures Round(nOfInputs as real * innerLayerRatio) < 0x8000_0000 ==>
      c >= 2 && c >= Round(nOfInputs as real * innerLayerRatio)
  {
    ToInt(Max(2, Round(nOfInputs as real * innerLayerRatio)))
  }

  /** The size of inner layer i of n (n > 1), with k = n / 2 layers before
      the centre: layer i < k is i + 1 steps from the inputs towards the
      centre, layer i >= k is i - k steps from the centre towards the
      outputs; a step is the distance divided by k + 1, truncated. */
  function LayerSize(nOfInputs: int, nOfOutputs: int, center: int, n: nat, i: nat): int
    requires n > 1
  {
    var k := n / 2;
    if i < k then nOfInputs + Quot(center - nOfInputs, k + 1) * (i + 1)
    else center + Quot(nOfOutputs - center, k + 1) * (i - k)
  }

  /** All inner layer sizes: none for no layer, the centre alone for one. */
  function InnerSizes(nOfInputs: int, nOfOutputs: int, center: int, n: nat): (r: seq<int>)
    ensures |r| == n
  {
    if n > 1 then seq(n, i requires 0 <= i < n => LayerSize(nOfInputs, nOfOutputs, center, n, i))
    else if n == 1 then [center]
    else []
  }

  /** The sizing inside mlp(innerLayerRatio, nOfInnerLayers, ...) applied
      to (nOfInputs, nOfOutputs): fills the array of inner sizes in two
      loops. */
  method InnerNeurons(innerLayerRatio: real, nOfInnerLayers: nat, nOfInputs: int, nOfOutputs: int)
    returns (innerNeurons: array<int>)
    ensures fresh(innerNeurons)
    ensures innerNeurons[..] == InnerSizes(nOfInputs, nOfOutputs, CenterSize(nOfInputs, innerLayerRatio), nOfInnerLayers)
  {
    innerNeurons := new int[nOfInnerLayers];
    var centerSize := CenterSize(nOfInputs, innerLayerRatio);
    if nOfInnerLayers > 1 {
      var k := nOfInnerLayers / 2;
      for i := 0 to k
        invariant forall m :: 0 <= m < i ==>
          innerNeurons[m] == LayerSize(nOfInputs, nOfOutputs, centerSize, nOfInnerLayers, m)
      {
        innerNeurons[i] := nOfInputs + Quot(centerSize - nOfInputs, k + 1) * (i + 1);
      }
      for i := k to nOfInnerLayers
        invariant forall m :: 0 <= m < i ==>
          innerNeurons[m] == LayerSize(nOfInputs, nOfOutputs, centerSize, nOfInnerLayers, m)
      {
        innerNeurons[i] := centerSize + Quot(nOfOutputs - centerSize, k + 1) * (i - k);
      }
    } else if nOfInnerLayers > 0 {
      innerNeurons[0] := centerSize;
    }
  }

  /** The layer right after the k = n / 2 climbing ones is the centre. */
  lemma CenterLayer(nOfInputs: int, nOfOutputs: int, center: int, n: nat)
    requires n > 1
    ensures n / 2 < n && InnerSizes(nOfInputs, nOfOutputs, center, n)[n / 2] == center
  {
  }

  /** |q * m| <= |q * (k + 1)| for q of either sign and m <= k + 1. */
  lemma ScaleBelow(q: int, m: nat, b: nat)
    requires m <= b
    ensures q >= 0 ==> 0 <= q * m <= q * b
    ensures q < 0 ==> q * b <= q * m <= 0
  {
  }

  /** The layers before the centre lie between the input size and the
      centre size, both included, whichever of the two is larger. */
  lemma FirstHalfBetween(nOfInputs: int, nOfOutputs: int, center: int, n: nat, i: nat)
    requires n > 1 && i < n / 2
    ensures var s := InnerSizes(nOfInputs, nOfOutputs, center, n)[i];
      (nOfInputs <= center ==> nOfInputs <= s <= center) &&
      (center < nOfInputs ==> center <= s <= nOfInputs)
  {
    var k := n / 2;
    var d := center - nOfInputs;
    var q := Quot(d, k + 1);
    QuotBounds(d, k + 1);
    ScaleBelow(q, i + 1, k + 1);
  }

  /** The layers from the centre on lie between the centre size and the
      output size, both included, whichever of the two is larger. */
  lemma SecondHalfBetween(nOfInputs: int, nOfOutputs: int, center: int, n: nat, i: nat)
    requires n > 1 && n / 2 <= i < n
    ensures var s := InnerSizes(nOfInputs, nOfOutputs, center, n)[i];
      (center <= nOfOutputs ==> center <= s <= nOfOutputs) &&
      (nOfOutputs < center ==> nOfOutputs <= s <= center)
  {
    var k := n / 2;
    var d := nOfOutputs - center;
    var q := Quot(d, k + 1);
    assert i - k <= k + 1;
    QuotBounds(d, k + 1);
    ScaleBelow(q, i - k, k + 1);
  }

  /** The steps are truncated toward zero: a centre below the inputs gives
      a step that is rounded up, not down (Java's / on a negative
      numerator). */
  lemma TruncatedStep()
    ensures Quot(-3, 2) == -1
    ensures LayerSize(10, 1, 7, 3, 0) == 9
  {
  }
}
