/**
 Which tensors of a checkpoint belong to routed experts, and how a checkpoint's
 shards describe them.  ai2apps/model_installer.py.
 */
module TensorNames {
  import opened Base

  /** A tensor's name, cut at its dots. */
  type Name = seq<string>

  datatype Family = DeepSeek | Qwen36

  datatype Part = Part(projection: string, kind: string)

  /** `Dropped` tensors are deliberately served by neither the backbone nor the expert store. */
  datatype Class =
    | Dropped
    | Expert(layer: nat, expert: nat, part: Part)
    | Stacked(layer: nat, part: Part)
    | Plain

  predicate AllDigits(s: string) {
    s != "" && forall k :: 0 <= k < |s| ==> '0' <= s[k] <= '9'
  }

  /** The value of a decimal numeral; leading zeros do not change it. */
  function Number(s: string): nat
    requires forall k :: 0 <= k < |s| ==> '0' <= s[k] <= '9'
  {
    if s == "" then 0 else 10 * Number(s[..|s| - 1]) + (s[|s| - 1] - '0') as nat
  }

  predicate StackedPart(p: Part) {
    p.projection in ["gate_proj", "down_proj", "up_proj"] && p.kind in ["weight", "scales", "biases"]
  }

  predicate RawPart(p: Part) {
    p.projection in ["w1", "w2", "w3"] && p.kind in ["weight", "scale"]
  }

  /** The name behind an optional first component. */
  function Without(prefix: string, name: Name): Name {
    if name != [] && name[0] == prefix then name[1..] else name
  }

  function ClassifyStacked(name: Name, block: string): Class {
    if |name| == 6 && name[0] == "layers" && AllDigits(name[1]) && name[2] == block && name[3] == "switch_mlp"
       && StackedPart(Part(name[4], name[5]))
    then Stacked(Number(name[1]), Part(name[4], name[5]))
    else Plain
  }

  function Classify(family: Family, name: Name): Class {
    match family
    case DeepSeek =>
      if |name| > 1 && name[0] == "mtp" then Dropped
      else if |name| == 7 && name[0] == "layers" && AllDigits(name[1]) && name[2] == "ffn" && name[3] == "experts"
              && AllDigits(name[4]) && RawPart(Part(name[5], name[6]))
      then Expert(Number(name[1]), Number(name[4]), Part(name[5], name[6]))
      else ClassifyStacked(Without("model", name), "ffn")
    case Qwen36 =>
      var inner := Without("language_model", name);
      if inner != [] && inner[0] == "model" then ClassifyStacked(inner[1..], "mlp") else Plain
  }

  /** Represented by the expert store. */
  predicate Routed(family: Family, name: Name) {
    Classify(family, name).Expert? || Classify(family, name).Stacked?
  }

  /** What the backbone leaves out. */
  predicate Externalized(family: Family, name: Name) {
    Routed(family, name) || Classify(family, name).Dropped?
  }

  /** The optional prefix gives one stacked tensor two spellings. */
  lemma TwoPrefixes(layer: string, projection: string, kind: string)
    requires AllDigits(layer) && StackedPart(Part(projection, kind))
    ensures Classify(DeepSeek, ["layers", layer, "ffn", "switch_mlp", projection, kind])
            == Classify(DeepSeek, ["model", "layers", layer, "ffn", "switch_mlp", projection, kind])
            == Stacked(Number(layer), Part(projection, kind))
  {
    assert ["model", "layers", layer, "ffn", "switch_mlp", projection, kind][1..]
           == ["layers", layer, "ffn", "switch_mlp", projection, kind];
  }

  lemma {:induction false} LeadingZero(digits: string)
    requires AllDigits(digits)
    ensures AllDigits("0" + digits) && Number("0" + digits) == Number(digits)
  {
    var longer := "0" + digits;
    assert longer[..|longer| - 1] == "0" + digits[..|digits| - 1];
    if |digits| > 1 {
      LeadingZero(digits[..|digits| - 1]);
    } else {
      assert digits[..0] == "" && longer[..1] == "0" && "0"[..0] == "";
    }
  }

  /** And so do leading zeros, for one expert's tensor. */
  lemma TwoNumerals(layer: string, expert: string, projection: string, kind: string)
    requires AllDigits(layer) && AllDigits(expert) && RawPart(Part(projection, kind))
    ensures Classify(DeepSeek, ["layers", layer, "ffn", "experts", expert, projection, kind])
            == Classify(DeepSeek, ["layers", "0" + layer, "ffn", "experts", "0" + expert, projection, kind])
            == Expert(Number(layer), Number(expert), Part(projection, kind))
  {
    LeadingZero(layer);
    LeadingZero(expert);
  }

  /******* The names written out *******/

  function Digit(d: nat): char
    requires d < 10
  {
    "0123456789"[d]
  }

  /** Decimal notation without leading zeros. */
  function Numeral(n: nat): string {
    (if n < 10 then "" else Numeral(n / 10)) + [Digit(n % 10)]
  }

  lemma DigitIs(d: nat)
    requires d < 10
    ensures '0' <= Digit(d) <= '9' && (Digit(d) - '0') as nat == d
  {
    var digits := "0123456789";
    assert digits[0] == '0' && digits[1] == '1' && digits[2] == '2' && digits[3] == '3' && digits[4] == '4'
           && digits[5] == '5' && digits[6] == '6' && digits[7] == '7' && digits[8] == '8' && digits[9] == '9';
  }

  lemma CharIsDigit(c: char)
    requires '0' <= c <= '9'
    ensures (c - '0') as nat < 10 && c == Digit((c - '0') as nat)
  {
    DigitIs((c - '0') as nat);
  }

  /** `s` is decimal notation for n, possibly with leading zeros. */
  ghost predicate Spells(s: string, n: nat) {
    exists zeros: string :: s == zeros + Numeral(n) && AllZeros(zeros)
  }

  predicate AllZeros(s: string) {
    forall k :: 0 <= k < |s| ==> s[k] == '0'
  }

  /** A numeral counts its digits by powers of ten, and every string of digits is one. */
  lemma {:induction false} NumeralsAreDigits(s: string, n: nat)
    ensures Spells(s, n) <==> AllDigits(s) && Number(s) == n
  {
    if zeros: string :| s == zeros + Numeral(n) && AllZeros(zeros) {
      SpelledIsNumber(zeros, n);
    }
    if AllDigits(s) {
      DigitsSpell(s);
    }
  }

  /** One more digit at the end. */
  lemma AddDigit(s: string, digit: nat)
    requires digit < 10 && forall k :: 0 <= k < |s| ==> '0' <= s[k] <= '9'
    ensures AllDigits(s + [Digit(digit)]) && Number(s + [Digit(digit)]) == 10 * Number(s) + digit
  {
    hide Digit;
    DigitIs(digit);
    assert (s + [Digit(digit)])[..|s|] == s;
  }

  lemma {:induction false} SpelledIsNumber(zeros: string, n: nat)
    requires AllZeros(zeros)
    ensures AllDigits(zeros + Numeral(n)) && Number(zeros + Numeral(n)) == n
    decreases n
  {
    hide Number, Digit;
    if n < 10 {
      ZerosAreZero(zeros);
      AddDigit(zeros, n);
      assert Numeral(n) == [Digit(n)];
    } else {
      SpelledIsNumber(zeros, n / 10);
      AddDigit(zeros + Numeral(n / 10), n % 10);
      assert zeros + Numeral(n) == (zeros + Numeral(n / 10)) + [Digit(n % 10)];
    }
  }

  lemma {:induction false} ZerosAreZero(zeros: string)
    requires AllZeros(zeros)
    ensures forall k :: 0 <= k < |zeros| ==> '0' <= zeros[k] <= '9'
    ensures Number(zeros) == 0
  {
    if zeros != "" { ZerosAreZero(zeros[..|zeros| - 1]); }
  }

  lemma {:induction false} DigitsSpell(s: string)
    requires AllDigits(s)
    ensures Spells(s, Number(s))
  {
    hide Number, Digit, Numeral, Spells;
    var front, digit := s[..|s| - 1], (s[|s| - 1] - '0') as nat;
    CharIsDigit(s[|s| - 1]);
    assert s == front + [Digit(digit)];
    AddDigit(front, digit);
    if front == "" {
      ZerosAreZero(front);
      LastDigitSpells(front, digit);
    } else {
      DigitsSpell(front);
      MoreDigitsSpell(front, Number(front), digit);
    }
  }

  lemma LastDigitSpells(zeros: string, digit: nat)
    requires AllZeros(zeros) && digit < 10
    ensures Spells(zeros + [Digit(digit)], digit)
  {
    assert zeros + [Digit(digit)] == zeros + Numeral(digit);
  }

  lemma MoreDigitsSpell(front: string, n: nat, digit: nat)
    requires Spells(front, n) && digit < 10
    ensures Spells(front + [Digit(digit)], 10 * n + digit)
  {
    hide Digit;
    var zeros :| front == zeros + Numeral(n) && AllZeros(zeros);
    if n == 0 {
      DigitIs(0);
      assert Numeral(0) == [Digit(0)];
      LastDigitSpells(front, digit);
    } else {
      assert (10 * n + digit) / 10 == n && (10 * n + digit) % 10 == digit;
      assert front + [Digit(digit)] == zeros + Numeral(10 * n + digit);
    }
  }

  /** One expert's own tensor. */
  ghost predicate ExpertName(n: Name, layer: nat, expert: nat, part: Part) {
    && |n| == 7 && n == ["layers", n[1], "ffn", "experts", n[4], part.projection, part.kind]
    && Spells(n[1], layer) && Spells(n[4], expert)
    && part.projection in {"w1", "w2", "w3"} && part.kind in {"weight", "scale"}
  }

  /** A tensor that holds one part of all experts of a layer; the first component may be missing. */
  ghost predicate StackedName(family: Family, n: Name, layer: nat, part: Part) {
    && part.projection in {"gate_proj", "down_proj", "up_proj"} && part.kind in {"weight", "scales", "biases"}
    && match family
       case DeepSeek =>
         || (|n| == 6 && n == ["layers", n[1], "ffn", "switch_mlp", part.projection, part.kind]
             && Spells(n[1], layer))
         || (|n| == 7 && n == ["model", "layers", n[2], "ffn", "switch_mlp", part.projection, part.kind]
             && Spells(n[2], layer))
       case Qwen36 =>
         || (|n| == 7 && n == ["model", "layers", n[2], "mlp", "switch_mlp", part.projection, part.kind]
             && Spells(n[2], layer))
         || (|n| == 8 && n == ["language_model", "model", "layers", n[3], "mlp", "switch_mlp", part.projection,
                               part.kind]
             && Spells(n[3], layer))
  }

  /** DeepSeek's prediction layers, which its runtime does not serve. */
  predicate DroppedName(family: Family, n: Name) {
    family.DeepSeek? && |n| > 1 && n[0] == "mtp"
  }

  /** A routed expert's tensor, or one of all experts of a layer. */
  ghost predicate RoutedName(family: Family, n: Name) {
    || (family.DeepSeek? && exists layer: nat, expert: nat, part :: ExpertName(n, layer, expert, part))
    || exists layer: nat, part :: StackedName(family, n, layer, part)
  }

  /** The tensors a backbone goes without. */
  ghost predicate LeftOut(family: Family, n: Name) {
    DroppedName(family, n) || RoutedName(family, n)
  }

  /** Classification is by these shapes and nothing else. */
  lemma ClassifyIs(family: Family, n: Name)
    ensures Classify(family, n).Dropped? <==> DroppedName(family, n)
    ensures forall layer: nat, expert: nat, part ::
              (Classify(family, n) == Expert(layer, expert, part) <==>
               family.DeepSeek? && ExpertName(n, layer, expert, part))
    ensures forall layer: nat, part ::
              (Classify(family, n) == Stacked(layer, part) <==> StackedName(family, n, layer, part))
  {
    forall layer: nat, expert: nat, part
      ensures Classify(family, n) == Expert(layer, expert, part) <==>
              family.DeepSeek? && ExpertName(n, layer, expert, part)
    {
      ExpertNameIs(family, n, layer, expert, part);
    }
    forall layer: nat, part
      ensures Classify(family, n) == Stacked(layer, part) <==> StackedName(family, n, layer, part)
    {
      StackedNameIs(family, n, layer, part);
    }
  }

  lemma ExpertNameIs(family: Family, n: Name, layer: nat, expert: nat, part: Part)
    ensures Classify(family, n) == Expert(layer, expert, part) <==>
            family.DeepSeek? && ExpertName(n, layer, expert, part)
  {
    hide Spells, AllDigits, Number;
    if family.DeepSeek? && |n| == 7 {
      NumeralsAreDigits(n[1], layer);
      NumeralsAreDigits(n[4], expert);
    }
  }

  lemma ShortStackedIs(n: Name, block: string, layer: nat, part: Part)
    ensures ClassifyStacked(n, block) == Stacked(layer, part) <==>
            && |n| == 6 && n == ["layers", n[1], block, "switch_mlp", part.projection, part.kind] && Spells(n[1], layer)
            && part.projection in {"gate_proj", "down_proj", "up_proj"} && part.kind in {"weight", "scales", "biases"}
  {
    hide Spells, AllDigits, Number;
    if |n| == 6 { NumeralsAreDigits(n[1], layer); }
  }

  lemma StackedNameIs(family: Family, n: Name, layer: nat, part: Part)
    ensures Classify(family, n) == Stacked(layer, part) <==> StackedName(family, n, layer, part)
  {
    hide Spells, AllDigits, Number, ClassifyStacked;
    match family
    case DeepSeek =>
      ShortStackedIs(n, "ffn", layer, part);
      if n != [] { ShortStackedIs(n[1..], "ffn", layer, part); }
    case Qwen36 =>
      if n != [] { ShortStackedIs(n[1..], "mlp", layer, part); }
      if |n| > 1 { ShortStackedIs(n[2..], "mlp", layer, part); }
  }

  /** What the backbone leaves out and what the expert store holds, without classification. */
  lemma ExternalizedIs(family: Family, n: Name)
    ensures Routed(family, n) <==> RoutedName(family, n)
    ensures Externalized(family, n) <==> LeftOut(family, n)
  {
    hide Classify, ExpertName, StackedName;
    ClassifyIs(family, n);
    match Classify(family, n)
    case Expert(layer, expert, part) => assert ExpertName(n, layer, expert, part);
    case Stacked(layer, part) => assert StackedName(family, n, layer, part);
    case _ =>
  }

  /******* Shards *******/

  datatype TensorSpec = TensorSpec(dtype: string, shape: seq<nat>, start: nat, end: nat)

  /** A safetensors file: the header, whose data offsets count from `dataStart`, and the bytes after it. */
  datatype ShardFile = ShardFile(dataStart: nat, header: map<Name, TensorSpec>, data: seq<Byte>)

  /** A payload that cannot be read: negative length, or beyond the file's end. */
  predicate Unreadable(f: ShardFile, spec: TensorSpec) {
    spec.end < spec.start || (spec.start < spec.end && |f.data| < spec.end)
  }

  /** The bytes of a readable tensor. */
  function Payload(f: ShardFile, spec: TensorSpec): (r: seq<Byte>)
    ensures !Unreadable(f, spec) ==> |r| == spec.end - spec.start
  {
    if Unreadable(f, spec) || spec.start == spec.end then [] else f.data[spec.start..spec.end]
  }
}
