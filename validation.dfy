/**
 * The add-pet form's validation schema, as a pure function.
 *
 * Each of the four fields is checked on its own; the record is accepted when all
 * four pass, and otherwise every failing field reports one message. Text fields
 * are trimmed first; numeric fields arrive already coerced by `Number(...)`,
 * which is abstracted into `NumInput` (an empty string is `Blank`, text that
 * does not parse is `NotNumeric`, anything else is the number it denotes).
 */
module Validation {
  import opened Wrappers

  /** A numeric form field after the schema's coercion. */
  datatype NumInput = Blank | NotNumeric | Num(value: real)

  /** The form's raw values. */
  datatype RawPet = RawPet(petName: string, breed: string, age: NumInput, price: NumInput)

  /** The normalised record the schema produces when every field passes. */
  datatype PetInput = PetInput(petName: string, breed: string, age: int, price: real)

  datatype Field = PetName | Breed | Age | Price

  const NameRequired := "Pet name is required"
  const NameTooShort := "Name must be at least 2 characters"
  const BreedRequired := "Breed is required"
  const BreedTooShort := "Breed must be at least 2 characters"
  const AgeNotNumber := "Age must be a number"
  const AgeRequired := "Age is required"
  const AgeNotPositive := "Age must be positive"
  const AgeNotWhole := "Age must be a whole number"
  const PriceNotNumber := "Price must be a number"
  const PriceRequired := "Price is required"
  const PriceNotPositive := "Price must be positive"

  /** The minimum length of a trimmed name or breed. */
  const MinLength := 2

  // ---------------------------------------------------------------------------
  // Trimming

  /**
   * The characters `trim` removes: ECMAScript's white space (tab, vertical tab,
   * form feed, space, no-break space, byte order mark and the other space
   * separators) and its line terminators.
   */
  predicate IsSpace(c: char) {
    || c == '\t' || c == '\n' || c == '\U{000B}' || c == '\U{000C}' || c == '\r' || c == ' '
    || c == '\U{00A0}' || c == '\U{1680}' || ('\U{2000}' <= c <= '\U{200A}')
    || c == '\U{2028}' || c == '\U{2029}' || c == '\U{202F}' || c == '\U{205F}'
    || c == '\U{3000}' || c == '\U{FEFF}'
  }

  /** Drops leading white space. */
  function TrimStart(s: string): (r: string)
    ensures |r| <= |s|
  {
    if s != [] && IsSpace(s[0]) then TrimStart(s[1..]) else s
  }

  /** Drops trailing white space. */
  function TrimEnd(s: string): (r: string)
    ensures |r| <= |s|
  {
    if s != [] && IsSpace(s[|s| - 1]) then TrimEnd(s[..|s| - 1]) else s
  }

  /** How many leading characters `TrimStart` drops. */
  function Leading(s: string): nat {
    |s| - |TrimStart(s)|
  }

  /** `String.prototype.trim`. */
  function Trim(s: string): string {
    TrimEnd(TrimStart(s))
  }

  /** What `TrimStart` keeps is a suffix that starts visibly; what it drops is white space. */
  lemma {:induction false} TrimStartSpec(s: string)
    ensures |TrimStart(s)| <= |s| && TrimStart(s) == s[|s| - |TrimStart(s)|..]
    ensures forall k :: 0 <= k < |s| - |TrimStart(s)| ==> IsSpace(s[k])
    ensures TrimStart(s) != [] ==> !IsSpace(TrimStart(s)[0])
  {
    if s != [] && IsSpace(s[0]) {
      TrimStartSpec(s[1..]);
    }
  }

  /** What `TrimEnd` keeps is a prefix that ends visibly; what it drops is white space. */
  lemma {:induction false} TrimEndSpec(s: string)
    ensures |TrimEnd(s)| <= |s| && TrimEnd(s) == s[..|TrimEnd(s)|]
    ensures forall k :: |TrimEnd(s)| <= k < |s| ==> IsSpace(s[k])
    ensures TrimEnd(s) != [] ==> !IsSpace(TrimEnd(s)[|TrimEnd(s)| - 1])
  {
    if s != [] && IsSpace(s[|s| - 1]) {
      TrimEndSpec(s[..|s| - 1]);
      assert s[..|s| - 1][..|TrimEnd(s)|] == s[..|TrimEnd(s)|];
    }
  }

  /**
   * `Trim` keeps a slice of the input that starts and ends visibly, and only
   * white space lies outside it.
   */
  lemma TrimSpec(s: string)
    ensures Leading(s) + |Trim(s)| <= |s|
    ensures Trim(s) == s[Leading(s)..Leading(s) + |Trim(s)|]
    ensures forall k :: 0 <= k < Leading(s) ==> IsSpace(s[k])
    ensures forall k :: Leading(s) + |Trim(s)| <= k < |s| ==> IsSpace(s[k])
    ensures Trim(s) != [] ==> !IsSpace(Trim(s)[0]) && !IsSpace(Trim(s)[|Trim(s)| - 1])
  {
    var t := TrimStart(s);
    var r := TrimEnd(t);
    var a := Leading(s);
    TrimStartSpec(s);
    assert t == s[a..];
    TrimEndSpec(t);
    assert r == t[..|r|];
    assert r == s[a..a + |r|] by {
      assert s[a..][..|r|] == s[a..a + |r|];
    }
    forall k | a + |r| <= k < |s| ensures IsSpace(s[k]) {
      assert s[k] == t[k - a];
    }
    if r != [] {
      assert r[0] == t[0];
    }
  }

  lemma {:induction false} TrimStartSkips(s: string, i: nat)
    requires i <= |s| && (forall k :: 0 <= k < i ==> IsSpace(s[k]))
    requires i == |s| || !IsSpace(s[i])
    ensures TrimStart(s) == s[i..]
  {
    if i > 0 {
      TrimStartSkips(s[1..], i - 1);
    }
  }

  lemma {:induction false} TrimEndSkips(s: string, j: nat)
    requires j <= |s| && (forall k :: j <= k < |s| ==> IsSpace(s[k]))
    requires j == 0 || !IsSpace(s[j - 1])
    ensures TrimEnd(s) == s[..j]
  {
    if j < |s| {
      TrimEndSkips(s[..|s| - 1], j);
      assert s[..|s| - 1][..j] == s[..j];
    }
  }

  /**
   * `Trim` gives the unique slice that starts and ends visibly and has only
   * white space around it.
   */
  lemma TrimCore(s: string, i: nat, j: nat)
    requires i < j <= |s|
    requires forall k :: 0 <= k < i ==> IsSpace(s[k])
    requires forall k :: j <= k < |s| ==> IsSpace(s[k])
    requires !IsSpace(s[i]) && !IsSpace(s[j - 1])
    ensures Trim(s) == s[i..j]
  {
    var t := s[i..];
    assert TrimStart(s) == t by {
      TrimStartSkips(s, i);
    }
    assert TrimEnd(t) == s[i..j] by {
      TrimSuffixEnd(s, i, j);
    }
  }

  lemma TrimSuffixEnd(s: string, i: nat, j: nat)
    requires i < j <= |s|
    requires forall k :: j <= k < |s| ==> IsSpace(s[k])
    requires !IsSpace(s[j - 1])
    ensures TrimEnd(s[i..]) == s[i..j]
  {
    var t := s[i..];
    forall k | j - i <= k < |t| ensures IsSpace(t[k]) {
      assert t[k] == s[i + k];
    }
    assert t[j - i - 1] == s[j - 1];
    TrimEndSkips(t, j - i);
    assert t[..j - i] == s[i..j];
  }

  /** A string with nothing to trim at either end is its own trim. */
  lemma TrimVisibleEnds(s: string)
    requires s == [] || (!IsSpace(s[0]) && !IsSpace(s[|s| - 1]))
    ensures Trim(s) == s
  {
    if s != [] {
      TrimCore(s, 0, |s|);
    }
  }

  /** Trimming twice is trimming once. */
  lemma TrimIdempotent(s: string)
    ensures Trim(Trim(s)) == Trim(s)
  {
    TrimSpec(s);
    TrimVisibleEnds(Trim(s));
  }

  /** The trim is empty exactly when every character is white space. */
  lemma TrimEmptyIff(s: string)
    ensures Trim(s) == [] <==> forall k :: 0 <= k < |s| ==> IsSpace(s[k])
  {
    if forall k :: 0 <= k < |s| ==> IsSpace(s[k]) {
      TrimStartSkips(s, |s|);
    } else {
      var t := TrimStart(s);
      TrimStartSpec(s);
      TrimEndSpec(t);
      assert t != [];
      assert !IsSpace(t[0]);
    }
  }

  /** The trim has at least two characters exactly when two distinct positions are visible. */
  lemma TrimAtLeastTwoIff(s: string)
    ensures |Trim(s)| >= MinLength
        <==> exists i, j :: 0 <= i < j < |s| && !IsSpace(s[i]) && !IsSpace(s[j])
  {
    TrimSpec(s);
    var r, a := Trim(s), Leading(s);
    if |r| >= MinLength {
      assert s[a] == r[0] && s[a + |r| - 1] == r[|r| - 1];
    }
    if i, j :| 0 <= i < j < |s| && !IsSpace(s[i]) && !IsSpace(s[j]) {
      assert a <= i;
      assert j < a + |r|;
    }
  }

  // ---------------------------------------------------------------------------
  // Field rules

  /** The rule shared by the two text fields: trim, then required, then minimum length. */
  function CheckText(s: string, required: string, tooShort: string): (r: Result<string, string>)
    ensures r.Success? <==> |Trim(s)| >= MinLength
    ensures r.Success? ==> r.value == Trim(s)
  {
    var t := Trim(s);
    if |t| == 0 then Failure(required)
    else if |t| < MinLength then Failure(tooShort)
    else Success(t)
  }

  function CheckName(s: string): Result<string, string> {
    CheckText(s, NameRequired, NameTooShort)
  }

  function CheckBreed(s: string): Result<string, string> {
    CheckText(s, BreedRequired, BreedTooShort)
  }

  /** Whether a number has no fractional part. */
  predicate IsWhole(x: real) {
    x.Floor as real == x
  }

  /** Type check, then required, then positive, then whole. */
  function CheckAge(n: NumInput): (r: Result<int, string>)
    ensures r.Success? <==> n.Num? && n.value > 0.0 && IsWhole(n.value)
    ensures r.Success? ==> r.value > 0 && r.value as real == n.value
  {
    match n
    case Blank => Failure(AgeRequired)
    case NotNumeric => Failure(AgeNotNumber)
    case Num(v) =>
      if v <= 0.0 then Failure(AgeNotPositive)
      else if !IsWhole(v) then Failure(AgeNotWhole)
      else Success(v.Floor)
  }

  /** Type check, then required, then positive; fractions are accepted. */
  function CheckPrice(n: NumInput): (r: Result<real, string>)
    ensures r.Success? <==> n.Num? && n.value > 0.0
    ensures r.Success? ==> r.value == n.value
  {
    match n
    case Blank => Failure(PriceRequired)
    case NotNumeric => Failure(PriceNotNumber)
    case Num(v) => if v <= 0.0 then Failure(PriceNotPositive) else Success(v)
  }

  /** The message a field's own rule reports, if any. */
  function FieldError(raw: RawPet, f: Field): Option<string> {
    match f
    case PetName => ErrorOf(CheckName(raw.petName))
    case Breed => ErrorOf(CheckBreed(raw.breed))
    case Age => ErrorOf(CheckAge(raw.age))
    case Price => ErrorOf(CheckPrice(raw.price))
  }

  function ErrorOf<T>(r: Result<T, string>): Option<string> {
    match r
    case Success(_) => None
    case Failure(e) => Some(e)
  }

  /** The error map: one entry per failing field, holding that field's message. */
  function Errors(raw: RawPet): (m: map<Field, string>)
    ensures forall f :: f in m <==> FieldError(raw, f).Some?
    ensures forall f :: f in m ==> m[f] == FieldError(raw, f).value
  {
    map f | f in {PetName, Breed, Age, Price} && FieldError(raw, f).Some? :: FieldError(raw, f).value
  }

  /** The whole schema: a normalised record, or every field's error at once. */
  function Validate(raw: RawPet): (r: Result<PetInput, map<Field, string>>)
    ensures r.Success? <==> forall f :: FieldError(raw, f).None?
    ensures r.Success? ==> r.value.petName == Trim(raw.petName) && r.value.breed == Trim(raw.breed)
    ensures r.Success? ==> raw.age.Num? && r.value.age as real == raw.age.value
    ensures r.Success? ==> raw.price.Num? && r.value.price == raw.price.value
    ensures r.Failure? ==> r.error == Errors(raw)
  {
    var name, breed, age, price :=
      CheckName(raw.petName), CheckBreed(raw.breed), CheckAge(raw.age), CheckPrice(raw.price);
    if name.Success? && breed.Success? && age.Success? && price.Success? then
      Success(PetInput(name.value, breed.value, age.value, price.value))
    else
      assert FieldError(raw, PetName).Some? || FieldError(raw, Breed).Some?
          || FieldError(raw, Age).Some? || FieldError(raw, Price).Some?;
      Failure(Errors(raw))
  }

  // ---------------------------------------------------------------------------
  // Properties of the rules

  /** Name outcomes by the length of the trimmed text. */
  lemma NameOutcomes(s: string)
    ensures |Trim(s)| == 0 ==> CheckName(s) == Failure(NameRequired)
    ensures |Trim(s)| == 1 ==> CheckName(s) == Failure(NameTooShort)
    ensures |Trim(s)| >= 2 ==> CheckName(s) == Success(Trim(s))
    ensures CheckName(s).Failure? ==> CheckName(s).error in {NameRequired, NameTooShort}
  {
  }

  /** A name is required exactly when it is all white space, and long enough exactly
      when two of its characters are visible. */
  lemma NameOnRawText(s: string)
    ensures CheckName(s) == Failure(NameRequired) <==> forall k :: 0 <= k < |s| ==> IsSpace(s[k])
    ensures CheckName(s).Success?
        <==> exists i, j :: 0 <= i < j < |s| && !IsSpace(s[i]) && !IsSpace(s[j])
  {
    TrimEmptyIff(s);
    TrimAtLeastTwoIff(s);
  }

  lemma BreedOutcomes(s: string)
    ensures |Trim(s)| == 0 ==> CheckBreed(s) == Failure(BreedRequired)
    ensures |Trim(s)| == 1 ==> CheckBreed(s) == Failure(BreedTooShort)
    ensures |Trim(s)| >= 2 ==> CheckBreed(s) == Success(Trim(s))
  {
  }

  lemma AgeOutcomes(n: NumInput)
    ensures n == Blank ==> CheckAge(n) == Failure(AgeRequired)
    ensures n == NotNumeric ==> CheckAge(n) == Failure(AgeNotNumber)
    ensures n.Num? && n.value <= 0.0 ==> CheckAge(n) == Failure(AgeNotPositive)
    ensures n.Num? && n.value > 0.0 && !IsWhole(n.value) ==> CheckAge(n) == Failure(AgeNotWhole)
  {
  }

  lemma PriceOutcomes(n: NumInput)
    ensures n == Blank ==> CheckPrice(n) == Failure(PriceRequired)
    ensures n == NotNumeric ==> CheckPrice(n) == Failure(PriceNotNumber)
    ensures n.Num? && n.value <= 0.0 ==> CheckPrice(n) == Failure(PriceNotPositive)
  {
  }

  /** Each field's verdict reads that field alone. */
  lemma FieldIndependence(a: RawPet, b: RawPet)
    ensures a.petName == b.petName ==> FieldError(a, PetName) == FieldError(b, PetName)
    ensures a.breed == b.breed ==> FieldError(a, Breed) == FieldError(b, Breed)
    ensures a.age == b.age ==> FieldError(a, Age) == FieldError(b, Age)
    ensures a.price == b.price ==> FieldError(a, Price) == FieldError(b, Price)
  {
  }

  /** A one-letter name is the only complaint about an otherwise good record. */
  lemma ShortNameExample()
    ensures Validate(RawPet("A", "Lab", Num(3.0), Num(10.0))) == Failure(map[PetName := NameTooShort])
  {
    var raw := RawPet("A", "Lab", Num(3.0), Num(10.0));
    TrimVisibleEnds("A");
    TrimVisibleEnds("Lab");
    assert FieldError(raw, PetName) == Some(NameTooShort);
    assert Errors(raw) == map[PetName := NameTooShort];
  }

  /** An empty form with a negative price reports all four fields at once. */
  lemma EmptyFormExample()
    ensures Validate(RawPet("", "", Blank, Num(-5.0)))
         == Failure(map[PetName := NameRequired, Breed := BreedRequired,
                        Age := AgeRequired, Price := PriceNotPositive])
  {
    var raw := RawPet("", "", Blank, Num(-5.0));
    assert Errors(raw) == map[PetName := NameRequired, Breed := BreedRequired,
                              Age := AgeRequired, Price := PriceNotPositive];
  }
}
