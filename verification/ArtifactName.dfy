/** Spool artifact names: "runback_summary_gen" + attempt generation + ".json". */
module ArtifactName {
  import opened Prelude
  import Decimal

  const PREFIX := "runback_summary_gen"
  const SUFFIX := ".json"

  /** The writer's name for one attempt generation. */
  function NameOf(generation: nat): string {
    PREFIX + Decimal.Print(generation) + SUFFIX
  }

  predicate HasPrefix(s: string, prefix: string) {
    prefix <= s
  }

  predicate HasSuffix(s: string, suffix: string) {
    |suffix| <= |s| && s[|s| - |suffix|..] == suffix
  }

  predicate Framed(name: string) {
    HasPrefix(name, PREFIX) && HasSuffix(name, SUFFIX)
  }

  /** Prefix and suffix never overlap: the dot of the suffix does not occur in the prefix. So
      slicing out the middle of a framed name never goes out of range. */
  lemma FramedLength(name: string)
    requires Framed(name)
    ensures |PREFIX| + |SUFFIX| <= |name|
  {
    var dot := |name| - |SUFFIX|;
    assert name[dot] == name[dot..][0] == '.';
    assert forall i :: 0 <= i < |PREFIX| ==> name[i] == PREFIX[i] != '.';
  }

  function Middle(name: string): string
    requires Framed(name)
  {
    FramedLength(name);
    name[|PREFIX|..|name| - |SUFFIX|]
  }

  lemma FramedShape(name: string)
    requires Framed(name)
    ensures name == PREFIX + Middle(name) + SUFFIX
  {
    FramedLength(name);
    assert name == name[..|PREFIX|] + name[|PREFIX|..|name| - |SUFFIX|] + name[|name| - |SUFFIX|..];
  }

  lemma NameShape(generation: nat)
    ensures Framed(NameOf(generation)) && Middle(NameOf(generation)) == Decimal.Print(generation)
  {
  }

  datatype NameRefusal = EmptyName | UnknownArtifact | MissingGeneration | WrongGeneration

  function ValidateArtifactName(name: string, attemptGeneration: nat): Result<(), NameRefusal> {
    if name == "" then Err(EmptyName)
    else if !Framed(name) then Err(UnknownArtifact)
    else if Middle(name) == "" then Err(MissingGeneration)
    else if Middle(name) != Decimal.Print(attemptGeneration) then Err(WrongGeneration)
    else Ok(())
  }

  /** canonicalSummaryName: is the name in the writer's namespace, and which number does it carry? */
  function CanonicalSummaryName(name: string): Option<nat> {
    if !Framed(name) then None
    else if Middle(name) == "" then None
    else if !Decimal.AllDigits(Middle(name)) then None
    else Decimal.ParseUint64(Middle(name))
  }

  /** Validation accepts exactly one name per generation, the writer's. */
  lemma ValidateExact(name: string, generation: nat)
    ensures ValidateArtifactName(name, generation).Ok? <==> name == NameOf(generation)
    ensures ValidateArtifactName(name, generation) == Err(EmptyName) <==> name == ""
    ensures ValidateArtifactName(name, generation) == Err(UnknownArtifact) <==> name != "" && !Framed(name)
    ensures ValidateArtifactName(name, generation) == Err(MissingGeneration) <==> name == PREFIX + SUFFIX
  {
    assert Framed(PREFIX + SUFFIX) && Middle(PREFIX + SUFFIX) == "";
    if name == NameOf(generation) {
      NameShape(generation);
    }
    if Framed(name) {
      FramedShape(name);
    }
  }

  /** Printing a uint64 generation into a name and recognising it gives the generation back. */
  lemma CanonicalRoundTrip(generation: nat)
    requires generation < UINT64_LIMIT
    ensures CanonicalSummaryName(NameOf(generation)) == Some(generation)
  {
    NameShape(generation);
    Decimal.ParsePrint(generation);
  }

  /** The poller opens more names than validation accepts: those with superfluous leading zeros.
      A recognised name is the writer's name of its number exactly when it has none. */
  lemma CanonicalExact(name: string)
    requires CanonicalSummaryName(name).Some?
    ensures var n := CanonicalSummaryName(name).value;
            n < UINT64_LIMIT
            && (name == NameOf(n) <==> |Middle(name)| == 1 || Middle(name)[0] != '0')
  {
    var n := CanonicalSummaryName(name).value;
    var digits := Middle(name);
    FramedShape(name);
    if |digits| == 1 || digits[0] != '0' {
      Decimal.PrintOfValue(digits);
    }
    if name == NameOf(n) {
      NameShape(n);
      PrintLeadingDigit(n);
    }
  }

  /** Every uint64 generation has such a name: padded with a zero it is recognised as that
      generation, and no generation validates it. */
  lemma PaddedName(generation: nat, other: nat)
    requires generation < UINT64_LIMIT
    ensures var name := PREFIX + "0" + Decimal.Print(generation) + SUFFIX;
            CanonicalSummaryName(name) == Some(generation) && ValidateArtifactName(name, other).Err?
  {
    var digits := "0" + Decimal.Print(generation);
    var name := PREFIX + "0" + Decimal.Print(generation) + SUFFIX;
    assert name == PREFIX + digits + SUFFIX;
    assert Framed(name) && Middle(name) == digits;
    Decimal.ValuePadded(Decimal.Print(generation));
    Decimal.ValueOfPrint(generation);
    PrintLeadingDigit(other);
  }

  /** For one, the name of generation 1 padded. */
  lemma LeadingZeroRecognised()
    ensures CanonicalSummaryName("runback_summary_gen01.json") == Some(1)
    ensures ValidateArtifactName("runback_summary_gen01.json", 1).Err?
  {
    assert Decimal.Print(1) == "1";
    assert PREFIX + "0" + Decimal.Print(1) + SUFFIX == "runback_summary_gen01.json";
    PaddedName(1, 1);
  }

  lemma {:induction false} PrintLeadingDigit(n: nat)
    ensures |Decimal.Print(n)| == 1 || Decimal.Print(n)[0] != '0'
  {
    if n >= 10 {
      PrintLeadingDigit(n / 10);
      if |Decimal.Print(n / 10)| == 1 {
        assert n / 10 < 10;
        assert Decimal.DigitValue(Decimal.Print(n / 10)[0]) == n / 10;
      }
    }
  }

  /** Distinct generations have distinct names. */
  lemma NameInjective(m: nat, n: nat)
    requires NameOf(m) == NameOf(n)
    ensures m == n
  {
    NameShape(m);
    NameShape(n);
    Decimal.PrintInjective(m, n);
  }
}
