/**
 The option table of argparse and the matching of long option names: the scan with its two
 prefix tests and negation, against the simple reading "split at the first '='".
 */
module ArgOptions {
  import opened Words

  datatype OptType = Group | Boolean | Bit | Integer | U32 | CO32 | Str

  /**
   A row of the table (the terminating row is not part of the sequence). `slot` is the
   variable `value` points to, if any; `help` says that the callback is argparse_help_cb.
   */
  datatype Opt = Opt(
    typ: OptType, short: Option<char>, long: Option<string>, slot: Option<nat>,
    data: bv32, noneg: bool, help: bool)

  predicate Negatable(o: Opt) {
    !o.noneg && (o.typ == Boolean || o.typ == Bit)
  }

  /** Types that fetch a value text when they have a variable to store it in. */
  predicate TakesValue(o: Opt) {
    o.slot.Some? && (o.typ == Integer || o.typ == U32 || o.typ == CO32 || o.typ == Str)
  }

  // ---------------------------------------------------------------- the code's matching

  /** prefix_skip: the rest of `str` after `prefix`, or NULL. */
  function PrefixSkip(str: string, prefix: string): Option<string> {
    if prefix <= str then Some(str[|prefix|..]) else None
  }

  /** prefix_cmp: zero at the end of `prefix`, else the difference of the first differing characters. */
  function PrefixCmp(str: string, prefix: string): int {
    if prefix == "" then 0
    else if str == "" then prefix[0] as int
    else if str[0] != prefix[0] then prefix[0] as int - str[0] as int
    else PrefixCmp(str[1..], prefix[1..])
  }

  /** How a long option matched: negated or not, and the text after '=' if there is one. */
  datatype Hit = Hit(unset: bool, value: Option<string>)

  function EndOfName(rest: string, unset: bool): Option<Hit> {
    if rest == "" then Some(Hit(unset, None))
    else if rest[0] != '=' then None
    else Some(Hit(unset, Some(rest[1..])))
  }

  /** One iteration of argparse_long_opt on the text after "--". */
  function MatchLong(o: Opt, text: string): Option<Hit> {
    if o.long == None then None
    else
      match PrefixSkip(text, o.long.value)
      case Some(rest) => EndOfName(rest, false)
      case None =>
        if o.noneg || (o.typ != Boolean && o.typ != Bit) || |text| < 3 || PrefixCmp(text, "no-") != 0 then None
        else
          match PrefixSkip(text[3..], o.long.value)
          case Some(rest) => EndOfName(rest, true)
          case None => None
  }

  // ---------------------------------------------------------------- the simple reading

  function EqualsAt(text: string): (k: nat)
    ensures k <= |text| && '=' !in text[..k] && (k < |text| ==> text[k] == '=')
  {
    if text == "" || text[0] == '=' then 0
    else
      var k := 1 + EqualsAt(text[1..]);
      assert text[..k] == [text[0]] + text[1..][..k - 1];
      k
  }

  function Key(text: string): string {
    text[..EqualsAt(text)]
  }

  function ValuePart(text: string): Option<string> {
    var k := EqualsAt(text);
    if k < |text| then Some(text[k + 1..]) else None
  }

  /** The key is the option's name or, if it can be negated, its "no-" name. */
  function SpecMatch(o: Opt, text: string): Option<Hit> {
    if o.long == Some(Key(text)) then Some(Hit(false, ValuePart(text)))
    else if o.long.Some? && Negatable(o) && Key(text) == "no-" + o.long.value then Some(Hit(true, ValuePart(text)))
    else None
  }

  /** Names without '=', and negatable names that do not begin their own "no-" name. */
  predicate Regular(o: Opt) {
    o.long.Some? ==>
      && '=' !in o.long.value
      && (Negatable(o) ==> !(o.long.value <= "no-" + o.long.value))
  }

  // ---------------------------------------------------------------- equivalence

  lemma {:induction false} PrefixCmpIsPrefix(str: string, prefix: string)
    requires '\0' !in prefix
    ensures PrefixCmp(str, prefix) == 0 <==> prefix <= str
  {
    if prefix != "" {
      assert prefix[0] != '\0';
      if str != "" && str[0] == prefix[0] {
        PrefixCmpIsPrefix(str[1..], prefix[1..]);
        assert str == [str[0]] + str[1..] && prefix == [prefix[0]] + prefix[1..];
      }
    }
  }

  /** A name without '=' is the key exactly when the text is the name, or goes on with '='. */
  lemma KeyIs(text: string, name: string)
    requires '=' !in name
    ensures Key(text) == name <==> name <= text && (|text| == |name| || text[|name|] == '=')
    ensures Key(text) == name ==>
              ValuePart(text) == if |text| == |name| then None else Some(text[|name| + 1..])
  {
    var k := EqualsAt(text);
    if name <= text {
      assert forall i | 0 <= i < |name| :: text[i] == name[i];
      if |name| < k {
        assert text[..k][|name|] == text[|name|];
      }
    }
  }

  /** The two prefix tests, for one candidate name. */
  lemma EndOfNameIsKey(text: string, name: string, unset: bool)
    requires '=' !in name && name <= text
    ensures EndOfName(text[|name|..], unset) ==
            if Key(text) == name then Some(Hit(unset, ValuePart(text))) else None
  {
    KeyIs(text, name);
    var rest := text[|name|..];
    if rest != "" {
      assert rest[0] == text[|name|] && rest[1..] == text[|name| + 1..];
    }
  }

  lemma NegatedPrefix(text: string, name: string)
    ensures "no-" + name <= text <==> |text| >= 3 && "no-" <= text && name <= text[3..]
    ensures "no-" + name <= text ==> text[3..][|name|..] == text[|"no-" + name|..]
  {
    if |text| >= 3 {
      assert text == text[..3] + text[3..];
    }
  }

  lemma KeyIsPrefix(text: string)
    ensures Key(text) <= text
  {
  }

  /** A text that begins with the name can only be its "no-" form if that form begins with it too. */
  lemma NotBothNames(text: string, name: string)
    requires name <= text && Key(text) == "no-" + name
    ensures name <= "no-" + name
  {
    assert |name| <= |Key(text)|;
    assert forall i | 0 <= i < |name| :: Key(text)[i] == text[i];
  }

  lemma RegularMatches(o: Opt, text: string)
    requires Regular(o)
    ensures MatchLong(o, text) == SpecMatch(o, text)
  {
    if o.long.Some? {
      var name := o.long.value;
      KeyIsPrefix(text);
      if name <= text {
        EndOfNameIsKey(text, name, false);
        if Key(text) == "no-" + name {
          NotBothNames(text, name);
        }
      } else if |text| >= 3 {
        PrefixCmpIsPrefix(text, "no-");
        NegatedPrefix(text, name);
        if "no-" + name <= text {
          EndOfNameIsKey(text, "no-" + name, true);
        }
      }
    }
  }

  /** An irregular option has a text on which the scan and the simple reading disagree. */
  function Witness(o: Opt): string
    requires o.long.Some?
  {
    if '=' in o.long.value then o.long.value else "no-" + o.long.value
  }

  lemma IrregularDiffers(o: Opt)
    requires !Regular(o)
    ensures MatchLong(o, Witness(o)) != SpecMatch(o, Witness(o))
  {
    var name, text := o.long.value, Witness(o);
    if '=' in name {
      assert text[|name|..] == "";
      assert Key(text) != name;
    } else {
      KeyIs(text, text);
      var rest := text[|name|..];
      assert |rest| == 3 && rest[0] == text[|name|] && rest[0] in text;
    }
  }

  /** The scan reads every text as "split at the first '='" exactly for regular options. */
  lemma LongMatchExact(o: Opt)
    ensures (forall text :: MatchLong(o, text) == SpecMatch(o, text)) <==> Regular(o)
  {
    if Regular(o) {
      forall text
        ensures MatchLong(o, text) == SpecMatch(o, text)
      {
        RegularMatches(o, text);
      }
    } else {
      IrregularDiffers(o);
    }
  }

  // ---------------------------------------------------------------- the table scans

  /** The first row at or after `k` that matches, or the end of the table. */
  function FindLong(options: seq<Opt>, text: string, k: nat): (i: nat)
    requires k <= |options|
    ensures k <= i <= |options|
    ensures forall j | k <= j < i :: MatchLong(options[j], text) == None
    ensures i < |options| ==> MatchLong(options[i], text).Some?
    decreases |options| - k
  {
    if k == |options| || MatchLong(options[k], text).Some? then k else FindLong(options, text, k + 1)
  }

  function FindShort(options: seq<Opt>, c: char, k: nat): (i: nat)
    requires k <= |options|
    ensures k <= i <= |options|
    ensures forall j | k <= j < i :: options[j].short != Some(c)
    ensures i < |options| ==> options[i].short == Some(c)
    decreases |options| - k
  {
    if k == |options| || options[k].short == Some(c) then k else FindShort(options, c, k + 1)
  }

  /** With a regular table, the scan finds the first row named by the key. */
  lemma FindLongExact(options: seq<Opt>, text: string)
    requires forall o | o in options :: Regular(o)
    ensures
      var i := FindLong(options, text, 0);
      && (forall j | 0 <= j < i :: SpecMatch(options[j], text) == None)
      && (i < |options| ==> SpecMatch(options[i], text) == MatchLong(options[i], text) && SpecMatch(options[i], text).Some?)
  {
    forall j | 0 <= j < |options|
      ensures MatchLong(options[j], text) == SpecMatch(options[j], text)
    {
      RegularMatches(options[j], text);
    }
  }
}
