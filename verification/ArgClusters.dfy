/**
 What a cluster of short options means: each flag letter once, in order, and the first letter that
 takes a value gets the whole rest of the text, or else the next argument.
 */
module ArgClusters {
  import opened Words
  import opened ArgOptions
  import opened ArgSemantics

  /** A letter of the table that is only counted or set. */
  predicate IsFlagLetter(conf: Conf, c: char) {
    var k := FindShort(conf.options, c, 0);
    k < |conf.options| && !TakesValue(conf.options[k]) && !conf.options[k].help
  }

  predicate AllFlagLetters(conf: Conf, letters: string) {
    forall c | c in letters :: IsFlagLetter(conf, c)
  }

  /** The letters as separate options, one after the other. */
  function FlagAll(conf: Conf, ps: PS, letters: string): (r: PS)
    requires ValidConf(conf, |ps.store|) && AllFlagLetters(conf, letters)
    ensures |r.store| == |ps.store|
    ensures r == ps.(store := r.store, events := r.events)
    decreases |letters|
  {
    if letters == "" then ps
    else
      assert letters[0] in letters && forall c | c in letters[1..] :: c in letters;
      FlagAll(conf, Flag(conf, ps, FindShort(conf.options, letters[0], 0), false), letters[1..])
  }

  /** The option and its variable do not depend on the pending text. */
  lemma FlagIgnoresPending(conf: Conf, ps: PS, k: nat, pending: Option<Text>)
    requires k < |conf.options| && ValidConf(conf, |ps.store|)
    ensures Flag(conf, ps.(pending := pending), k, false) == Flag(conf, ps, k, false).(pending := pending)
  {
  }

  lemma {:induction false} FlagAllIgnoresPending(conf: Conf, ps: PS, letters: string, pending: Option<Text>)
    requires ValidConf(conf, |ps.store|) && AllFlagLetters(conf, letters)
    ensures FlagAll(conf, ps.(pending := pending), letters) == FlagAll(conf, ps, letters).(pending := pending)
    decreases |letters|
  {
    if letters != "" {
      var k := FindShort(conf.options, letters[0], 0);
      assert letters[0] in letters && forall c | c in letters[1..] :: c in letters;
      FlagIgnoresPending(conf, ps, k, pending);
      FlagAllIgnoresPending(conf, Flag(conf, ps, k, false), letters[1..], pending);
    }
  }

  /** One flag letter in front. */
  lemma OneFlag(conf: Conf, args: seq<string>, ps: PS, c: char, rest: string, at: nat)
    requires ValidConf(conf, |ps.store|) && ps.i < |args| && IsFlagLetter(conf, c)
    requires rest != "" && ps.pending == Some(Text([c] + rest, at))
    ensures
      var k := FindShort(conf.options, c, 0);
      Cluster(conf, args, ps) == Cluster(conf, args, Flag(conf, ps, k, false).(pending := Some(Text(rest, at))))
  {
    var k := FindShort(conf.options, c, 0);
    assert ([c] + rest)[0] == c && ([c] + rest)[1..] == rest;
    FlagIgnoresPending(conf, ps, k, Some(Text(rest, at)));
    hide Flag;
    hide FindShort;
    assert ShortOpt(conf, args, ps) == Ok(Flag(conf, ps.(pending := Some(Text(rest, at))), k, false));
  }

  /** Flag letters in front of other text. */
  lemma {:induction false} FlagsFirst(conf: Conf, args: seq<string>, ps: PS, letters: string, rest: string, at: nat)
    requires ValidConf(conf, |ps.store|) && ps.i < |args| && AllFlagLetters(conf, letters)
    requires rest != "" && ps.pending == Some(Text(letters + rest, at))
    ensures Cluster(conf, args, ps) == Cluster(conf, args, FlagAll(conf, ps, letters).(pending := Some(Text(rest, at))))
    decreases |letters|
  {
    if letters == "" {
      assert letters + rest == rest;
    } else {
      var k := FindShort(conf.options, letters[0], 0);
      var left := letters[1..] + rest;
      assert letters[0] in letters && forall c | c in letters[1..] :: c in letters;
      assert letters + rest == [letters[0]] + left;
      OneFlag(conf, args, ps, letters[0], left, at);
      var q := Flag(conf, ps, k, false).(pending := Some(Text(left, at)));
      FlagsFirst(conf, args, q, letters[1..], rest, at);
      FlagAllIgnoresPending(conf, Flag(conf, ps, k, false), letters[1..], Some(Text(left, at)));
    }
  }

  /** A letter that takes a value, with the rest of the text. */
  lemma ValueLetter(conf: Conf, args: seq<string>, ps: PS, c: char, value: string, at: nat)
    requires ValidConf(conf, |ps.store|) && ps.i < |args| && ps.pending == Some(Text([c] + value, at))
    requires FindShort(conf.options, c, 0) < |conf.options| && TakesValue(conf.options[FindShort(conf.options, c, 0)])
    ensures
      Cluster(conf, args, ps) ==
      GetValue(conf, args, ps.(pending := if value == "" then None else Some(Text(value, at))),
               FindShort(conf.options, c, 0), false)
  {
    hide FindShort;
    hide Interpret;
    assert ([c] + value)[0] == c && ([c] + value)[1..] == value;
  }

  /**
   A cluster of flag letters and a letter that takes a value: every flag is applied once, in order,
   and the value option gets all of the remaining text, or the next argument if there is none.
   */
  lemma ClusterMeaning(conf: Conf, args: seq<string>, ps: PS, letters: string, c: char, value: string, at: nat)
    requires ValidConf(conf, |ps.store|) && ps.i < |args| && AllFlagLetters(conf, letters)
    requires FindShort(conf.options, c, 0) < |conf.options| && TakesValue(conf.options[FindShort(conf.options, c, 0)])
    requires ps.pending == Some(Text(letters + ([c] + value), at))
    ensures
      Cluster(conf, args, ps) ==
      GetValue(conf, args, FlagAll(conf, ps, letters).(pending := if value == "" then None else Some(Text(value, at))),
               FindShort(conf.options, c, 0), false)
  {
    FlagsFirst(conf, args, ps, letters, [c] + value, at);
    ValueLetter(conf, args, FlagAll(conf, ps, letters).(pending := Some(Text([c] + value, at))), c, value, at);
  }
}
