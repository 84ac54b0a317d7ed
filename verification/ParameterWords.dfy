/** Which words the values of parameters are written in (plugin/kodo_parameters.go:53-71, 469-501), and
    what an accepted record makes of them. */
module ParameterWords {
  import opened Wrappers
  import opened Text
  import opened Fields
  import opened Parameters
  import opened VolumeParameters

  // -- numbers -----------------------------------------------------------------------------------

  function Zeros(n: nat): string { seq(n, _ => '0') }

  lemma {:induction false} ZerosCountNothing(n: nat, s: string)
    requires AllDigits(s)
    ensures AllDigits(Zeros(n) + s) && DecimalValue(Zeros(n) + s) == DecimalValue(s)
    decreases n, |s|
  {
    var t := Zeros(n) + s;
    if s != "" {
      ZerosCountNothing(n, s[..|s| - 1]);
      assert t[..|t| - 1] == Zeros(n) + s[..|s| - 1];
    } else if n > 0 {
      ZerosCountNothing(n - 1, "");
      assert t[..|t| - 1] == Zeros(n - 1) + "";
    }
  }

  lemma {:induction false} NoLeadingZero(t: string)
    requires t != "" && AllDigits(t) && t[0] != '0'
    ensures t == FormatUint(DecimalValue(t)) && DecimalValue(t) > 0
    decreases |t|
  {
    var u, c := t[..|t| - 1], t[|t| - 1];
    assert t == u + [c];
    if u == "" {
      assert DecimalValue(t) == DigitValue(c);
    } else {
      NoLeadingZero(u);
    }
  }

  lemma {:induction false} DigitsArePadded(t: string) returns (z: nat)
    requires t != "" && AllDigits(t)
    ensures t == Zeros(z) + FormatUint(DecimalValue(t))
    decreases |t|
  {
    if t[0] != '0' {
      z := 0;
      NoLeadingZero(t);
    } else if |t| == 1 {
      z := 0;
      assert DecimalValue(t[..0]) == 0;
    } else {
      z := DigitsArePadded(t[1..]);
      assert t == Zeros(1) + t[1..];
      ZerosCountNothing(1, t[1..]);
      assert Zeros(z + 1) == Zeros(1) + Zeros(z);
      z := z + 1;
    }
  }

  /** A text is read as a number exactly when it is that number's decimal text, with any number of
      leading zeros, and the number fits into 64 bits. */
  lemma ParseUintExactly(t: string, n: nat)
    ensures ParseUint(t) == Some(n) <==>
            n < 0x1_0000_0000_0000_0000 && exists z: nat :: t == Zeros(z) + FormatUint(n)
  {
    if ParseUint(t) == Some(n) {
      var z := DigitsArePadded(t);
    }
    if z: nat :| t == Zeros(z) + FormatUint(n) {
      FormatUintDigits(n);
      ZerosCountNothing(z, FormatUint(n));
    }
  }

  // -- all kinds of values -----------------------------------------------------------------------

  /** The value that a text stands for, by the kind of its field: words are compared without regard to
      case, white space around a text does not count. */
  ghost predicate Reads(lib: Lib, kind: Kind, text: string, v: Val) {
    var t := TrimSpace(text);
    var word := ToLower(lib.lower, t);
    match kind
    case TextKind => v == Txt(t)
    case BoolKind | FlagKind =>
      || (v == Bit(true) && word in ["yes", "true", "y", "on"])
      || (v == Bit(false) && word in ["no", "false", "n", "off"])
    case ModeKind =>
      || (v == Mode("off") && word in ["off", ""])
      || (v == Mode("minimal") && word in ["min", "minimal"])
      || (v == Mode("writes") && word == "writes")
      || (v == Mode("full") && word == "full")
    case UintKind => v.Num? && v.num < 0x1_0000_0000_0000_0000 && exists z: nat :: t == Zeros(z) + FormatUint(v.num)
    case DurationKind => v.Span? && lib.parseDuration(t) == Some(v.nanos)
    case UrlKind => v.Link? && lib.parseUrl(t) == Some(v.url)
  }

  lemma BoolReads(lib: Lib, text: string, b: bool)
    ensures ParseBool(lib, text) == Some(b) <==>
            var word := ToLower(lib.lower, TrimSpace(text));
            if b then word in ["yes", "true", "y", "on"] else word in ["no", "false", "n", "off"]
  {
  }

  lemma ModeReads(lib: Lib, text: string, m: string)
    ensures ParseMode(lib, text) == Some(m) <==> Reads(lib, ModeKind, text, Mode(m))
  {
  }

  lemma BitReads(lib: Lib, s: Slot, text: string, v: Val)
    requires KindOf(s) == BoolKind || KindOf(s) == FlagKind
    ensures ParseValue(lib, s, text) == Some(v) <==> Reads(lib, KindOf(s), text, v)
  {
    if v.Bit? {
      BoolReads(lib, text, v.bit);
    }
  }

  /** A text is accepted for a field, as this value, exactly when it stands for it. */
  lemma ParseValueExactly(lib: Lib, s: Slot, text: string, v: Val)
    ensures ParseValue(lib, s, text) == Some(v) <==> Reads(lib, KindOf(s), text, v)
  {
    match KindOf(s)
    case TextKind =>
    case UrlKind =>
    case BoolKind => BitReads(lib, s, text, v);
    case FlagKind => BitReads(lib, s, text, v);
    case UintKind => if v.Num? { ParseUintExactly(TrimSpace(text), v.num); }
    case DurationKind =>
    case ModeKind => if v.Mode? { ModeReads(lib, text, v.mode); }
  }

  // -- the record of a storage class -------------------------------------------------------------

  /** The map gives the field this value, other than the zero value, under a key of its name. */
  ghost predicate InMap(lib: Lib, ctx: map<string, string>, s: Slot, v: Val) {
    && v != Zero(s)
    && exists k :: k in ctx && ToLower(lib.lower, k) == FieldOf(s) && Reads(lib, KindOf(s), ctx[k], v)
  }

  ghost predicate NotInMap(lib: Lib, ctx: map<string, string>, s: Slot) { forall v: Val :: !InMap(lib, ctx, s, v) }

  lemma EntryReads(lib: Lib, stage: Stage, key: string, text: string, s: Slot, v: Val)
    requires Belongs(stage, s)
    ensures ReaderOf(lib, stage)(key, text) == Good(s, v) <==>
            ToLower(lib.lower, key) == FieldOf(s) && Reads(lib, KindOf(s), text, v)
  {
    RecogniseExactly(stage, ToLower(lib.lower, key), s);
    ParseValueExactly(lib, s, text, v);
  }

  lemma GivesIsInMap(lib: Lib, stage: Stage, ctx: map<string, string>, s: Slot, k: string)
    requires Belongs(stage, s) && k in ctx && Gives(ReaderOf(lib, stage)(k, ctx[k]), s)
    ensures InMap(lib, ctx, s, ReaderOf(lib, stage)(k, ctx[k]).val)
  {
    EntryReads(lib, stage, k, ctx[k], s, ReaderOf(lib, stage)(k, ctx[k]).val);
  }

  lemma InMapIsGiven(lib: Lib, stage: Stage, ctx: map<string, string>, s: Slot, v: Val) returns (k: string)
    requires Belongs(stage, s) && InMap(lib, ctx, s, v)
    ensures k in ctx && ReaderOf(lib, stage)(k, ctx[k]) == Good(s, v) && v != Zero(s)
  {
    k :| k in ctx && ToLower(lib.lower, k) == FieldOf(s) && Reads(lib, KindOf(s), ctx[k], v);
    EntryReads(lib, stage, k, ctx[k], s, v);
  }

  lemma GivenInMap(lib: Lib, stage: Stage, ctx: map<string, string>, s: Slot)
    requires Belongs(stage, s)
    ensures Given(ReaderOf(lib, stage), ctx, s) <==> !NotInMap(lib, ctx, s)
  {
    var read := ReaderOf(lib, stage);
    if Given(read, ctx, s) {
      var k :| k in ctx && Gives(read(k, ctx[k]), s);
      GivesIsInMap(lib, stage, ctx, s, k);
    }
    if v: Val :| InMap(lib, ctx, s, v) {
      var k := InMapIsGiven(lib, stage, ctx, s, v);
      assert Gives(read(k, ctx[k]), s);
    }
  }

  /** What a field holds that is completed from the secrets. */
  ghost predicate Stated(lib: Lib, ctx: map<string, string>, secrets: map<string, string>, s: Slot, otherwise: Val,
                         v: Val) {
    if !NotInMap(lib, ctx, s) then InMap(lib, ctx, s, v)
    else if FieldOf(s) in secrets then Reads(lib, KindOf(s), secrets[FieldOf(s)], v)
    else v == otherwise
  }

  predicate Completed(s: Slot) {
    s in [AccessKey, SecretKey, UcEndpoint, Region, StorageClass, SubDir, S3ForcePathStyle]
  }

  /** Every field of an accepted record holds what the map says in words; or else, if it is one of
      seven, what the secrets say; a region that neither gives is "z0", a storage class is "STANDARD",
      and any other field is empty. */
  lemma RecordExactly(lib: Lib, ctx: map<string, string>, secrets: map<string, string>, order: seq<string>, s: Slot)
    requires IsOrder(ctx, order) && Agree(ReaderOf(lib, ClassStage), ctx) && ParseClass(lib, ctx, secrets, order).Some?
    requires Belongs(ClassStage, s)
    ensures var v := Get(ParseClass(lib, ctx, secrets, order).value, s);
            var otherwise :=
              if s == Region then Txt("z0") else if s == StorageClass then Txt("STANDARD") else Zero(s);
            if Completed(s) then Stated(lib, ctx, secrets, s, otherwise, v)
            else if !NotInMap(lib, ctx, s) then InMap(lib, ctx, s, v)
            else v == Zero(s)
  {
    var read, v := ReaderOf(lib, ClassStage), Get(ParseClass(lib, ctx, secrets, order).value, s);
    GivenInMap(lib, ClassStage, ctx, s);
    CompletedAreFallbacks(s);
    if Given(read, ctx, s) {
      GivenValueInMap(lib, ctx, secrets, order, s);
    } else {
      ClassRecord(lib, ctx, secrets, order, s);
      if FieldOf(s) in secrets {
        ParseValueExactly(lib, s, secrets[FieldOf(s)], v);
      }
    }
  }

  lemma CompletedAreFallbacks(s: Slot)
    ensures Completed(s) <==> s in CLASS_FALLBACKS
  {
  }

  lemma GivenValueInMap(lib: Lib, ctx: map<string, string>, secrets: map<string, string>, order: seq<string>, s: Slot)
    requires IsOrder(ctx, order) && Agree(ReaderOf(lib, ClassStage), ctx) && ParseClass(lib, ctx, secrets, order).Some?
    requires Belongs(ClassStage, s) && Given(ReaderOf(lib, ClassStage), ctx, s)
    ensures InMap(lib, ctx, s, Get(ParseClass(lib, ctx, secrets, order).value, s))
  {
    var read := ReaderOf(lib, ClassStage);
    var k :| k in ctx && Gives(read(k, ctx[k]), s);
    ClassRecord(lib, ctx, secrets, order, s);
    GivesIsInMap(lib, ClassStage, ctx, s, k);
  }

  /** Switches: an accepted record has one set exactly when the map gives it as one of four words. */
  lemma SwitchExactly(lib: Lib, ctx: map<string, string>, secrets: map<string, string>, order: seq<string>, s: Slot)
    requires IsOrder(ctx, order) && Agree(ReaderOf(lib, ClassStage), ctx) && ParseClass(lib, ctx, secrets, order).Some?
    requires Belongs(ClassStage, s) && KindOf(s) == FlagKind
    ensures Get(ParseClass(lib, ctx, secrets, order).value, s) ==
            Bit(exists k :: k in ctx && ToLower(lib.lower, k) == FieldOf(s) &&
                            ToLower(lib.lower, TrimSpace(ctx[k])) in ["yes", "true", "y", "on"])
  {
    RecordExactly(lib, ctx, secrets, order, s);
    FlagsAreNotCompleted(s);
    var v := Get(ParseClass(lib, ctx, secrets, order).value, s);
    if k :| k in ctx && ToLower(lib.lower, k) == FieldOf(s) &&
            ToLower(lib.lower, TrimSpace(ctx[k])) in ["yes", "true", "y", "on"] {
      assert Reads(lib, KindOf(s), ctx[k], Bit(true));
      assert InMap(lib, ctx, s, Bit(true));
    }
  }

  lemma FlagsAreNotCompleted(s: Slot)
    requires KindOf(s) == FlagKind
    ensures !Completed(s) && Zero(s) == Bit(false)
  {
  }
}
