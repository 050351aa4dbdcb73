/** Mutually exclusive command-line flags (`MutuallyExclusiveOption`): an option
    carries the set of option names it may not be given together with; its help
    text gains a note naming them, and parsing rejects it when it is given
    together with any of them. */
module ExclusiveOptions {

  /** What the constructor appends to the help text before the excluded names. */
  const NotePrefix: string := " NOTE: This argument is mutually exclusive with  arguments: ["
  /** What the constructor appends after the excluded names. */
  const NoteSuffix: string := "]."
  /** The separator between names in the note and in the usage message. */
  const Separator: string := ", "
  /** How a usage message begins, followed by the option's name. */
  const UsagePrefix: string := "Illegal usage: `"

  /** The names of the three flags of the cluster tool. */
  const CreateFlag: string := "create"
  const DeleteFlag: string := "delete"
  const StatusFlag: string := "status"

  /** `names` joined with `sep` between each two neighbours, as a string join does. */
  function Join(names: seq<string>, sep: string): (r: string)
    ensures |names| == 1 ==> r == names[0]
  {
    if |names| == 0 then ""
    else if |names| == 1 then names[0]
    else names[0] + sep + Join(names[1..], sep)
  }

  /** Where the `i`-th name starts in `Join(names, sep)`. */
  function JoinOffset(names: seq<string>, sep: string, i: nat): nat
    requires i <= |names|
  {
    if i == 0 then 0 else |names[0]| + |sep| + JoinOffset(names[1..], sep, i - 1)
  }

  /** Every joined name stands, unchanged, at its offset in the joined string. */
  lemma {:induction false} JoinHoldsEachName(names: seq<string>, sep: string, i: nat)
    requires i < |names|
    ensures JoinOffset(names, sep, i) + |names[i]| <= |Join(names, sep)|
    ensures Join(names, sep)[JoinOffset(names, sep, i)..JoinOffset(names, sep, i) + |names[i]|] == names[i]
  {
    var j := Join(names, sep);
    if i == 0 {
      if |names| > 1 {
        assert j == names[0] + (sep + Join(names[1..], sep));
      }
    } else {
      var rest := Join(names[1..], sep);
      var head := names[0] + sep;
      assert j == head + rest;
      JoinHoldsEachName(names[1..], sep, i - 1);
      var off := JoinOffset(names[1..], sep, i - 1);
      assert names[1..][i - 1] == names[i];
      assert JoinOffset(names, sep, i) == |head| + off;
      assert j[|head| + off..|head| + off + |names[i]|] == rest[off..off + |names[i]|];
    }
  }

  /** A slice of the middle part of a concatenation. */
  lemma SliceOfMiddle(a: string, b: string, c: string, lo: nat, hi: nat)
    requires lo <= hi <= |b|
    ensures (a + b + c)[|a| + lo..|a| + hi] == b[lo..hi]
  {
    var s := a + b + c;
    assert forall k :: |a| + lo <= k < |a| + hi ==> s[k] == b[k - |a|];
  }

  /** `order` lists the members of `s`, each once: the order in which the
      source's set of names happens to be iterated, which the source leaves unspecified. */
  predicate Enumerates(order: seq<string>, s: set<string>) {
    && (forall i, j :: 0 <= i < j < |order| ==> order[i] != order[j])
    && s == set x | x in order
  }

  /** An option as the tool declares it: its name, its (extended) help text, the
      names it excludes and the order in which those are listed in messages. */
  datatype ExclusiveOption = ExclusiveOption(
    name: string,
    help: string,
    mutuallyExclusive: set<string>,
    order: seq<string>)

  /** The help text the constructor stores: unchanged when nothing is excluded,
      otherwise the original help followed by a note naming the excluded options. */
  function HelpText(help: string, excluded: set<string>, order: seq<string>): (r: string)
    requires Enumerates(order, excluded)
    ensures excluded == {} ==> r == help
    ensures |help| <= |r| && r[..|help|] == help
    ensures excluded != {} ==> |r| > |help|
  {
    if excluded == {} then help
    else help + NotePrefix + Join(order, Separator) + NoteSuffix
  }

  /** With something excluded, the help text is the original help, the note's
      opening words, the excluded names joined by ", ", and the closing "].". */
  lemma HelpTextShape(help: string, excluded: set<string>, order: seq<string>)
    requires Enumerates(order, excluded)
    requires excluded != {}
    ensures var r := HelpText(help, excluded, order);
      && |r| == |help| + |NotePrefix| + |Join(order, Separator)| + |NoteSuffix|
      && r[|help|..|help| + |NotePrefix|] == NotePrefix
      && r[|help| + |NotePrefix|..|r| - |NoteSuffix|] == Join(order, Separator)
      && r[|r| - |NoteSuffix|..] == NoteSuffix
  {
  }

  /** Every excluded name appears in the note of the help text: the `i`-th name
      listed stands, unchanged, at its place after the note's opening words. */
  lemma HelpNamesEveryExcluded(help: string, excluded: set<string>, order: seq<string>, i: nat)
    requires Enumerates(order, excluded)
    requires i < |order|
    ensures order[i] in excluded
    ensures var k := |help| + |NotePrefix| + JoinOffset(order, Separator, i);
            k + |order[i]| <= |HelpText(help, excluded, order)| &&
            HelpText(help, excluded, order)[k..k + |order[i]|] == order[i]
  {
    assert order[i] in excluded;
    JoinHoldsEachName(order, Separator, i);
    var j := Join(order, Separator);
    var lead := help + NotePrefix;
    assert HelpText(help, excluded, order) == lead + j + NoteSuffix;
    SliceOfMiddle(lead, j, NoteSuffix, JoinOffset(order, Separator, i), JoinOffset(order, Separator, i) + |order[i]|);
  }

  /** The constructor: the list of excluded names becomes a set, and the help
      text gains the note when that set is not empty. */
  function MakeOption(name: string, help: string, exclusive: seq<string>, order: seq<string>): (o: ExclusiveOption)
    requires Enumerates(order, set x | x in exclusive)
    ensures o.name == name
    ensures forall x :: x in o.mutuallyExclusive <==> x in exclusive
    ensures o.help == help <==> exclusive == []
    ensures |help| <= |o.help| && o.help[..|help|] == help
  {
    var excluded := set x | x in exclusive;
    assert exclusive != [] ==> exclusive[0] in excluded;
    ExclusiveOption(name, HelpText(help, excluded, order), excluded, order)
  }

  /** The verdict of one option's parse-result check. */
  datatype Check = Deferred | UsageError(message: string)

  /** The usage message naming the option and the options it excludes. */
  function UsageMessage(o: ExclusiveOption): string {
    UsagePrefix + o.name + "` is mutually exclusive with arguments `" + Join(o.order, Separator) + "`."
  }

  /** `handle_parse_result`: `opts` holds the names of the options given on the
      command line. The option is rejected when it is given together with any
      option it excludes; otherwise the check defers to the ordinary parsing. */
  function HandleParseResult(o: ExclusiveOption, opts: set<string>): (r: Check)
    ensures r.UsageError? <==> o.name in opts && exists x :: x in o.mutuallyExclusive && x in opts
    ensures r.UsageError? ==>
              |UsagePrefix + o.name| <= |r.message| && r.message[..|UsagePrefix + o.name|] == UsagePrefix + o.name
  {
    if o.mutuallyExclusive * opts != {} && o.name in opts then
      UsageError(UsageMessage(o))
    else
      assert forall x :: x in o.mutuallyExclusive && x in opts ==> x in o.mutuallyExclusive * opts;
      Deferred
  }

  /** The parse-result checks of a command's options, in processing order: the
      first usage error ends parsing. */
  function ParseCommand(options: seq<ExclusiveOption>, opts: set<string>): (r: Check)
    ensures r.UsageError? <==> exists i :: 0 <= i < |options| && HandleParseResult(options[i], opts).UsageError?
    ensures r.UsageError? ==> exists i :: 0 <= i < |options| && HandleParseResult(options[i], opts) == r &&
                                 forall j :: 0 <= j < i ==> HandleParseResult(options[j], opts).Deferred?
  {
    if |options| == 0 then Deferred
    else
      var c := HandleParseResult(options[0], opts);
      if c.UsageError? then c
      else
        var rest := ParseCommand(options[1..], opts);
        assert forall i :: 1 <= i < |options| ==> options[i] == options[1..][i - 1];
        rest
  }

  /** The three flags of the cluster tool, each excluding the other two. The
      order in which a set of two names is listed is fixed here as declared. */
  function CliOptions(): seq<ExclusiveOption> {
    [ MakeOption(CreateFlag, "Create redshift cluster.", [DeleteFlag, StatusFlag], [DeleteFlag, StatusFlag]),
      MakeOption(DeleteFlag, "Delete redshift cluster.", [CreateFlag, StatusFlag], [CreateFlag, StatusFlag]),
      MakeOption(StatusFlag, "Get status of redshift cluster.", [CreateFlag, DeleteFlag], [CreateFlag, DeleteFlag]) ]
  }

  /** Two flags given together. */
  predicate TwoFlagsGiven(opts: set<string>) {
    || (CreateFlag in opts && DeleteFlag in opts)
    || (CreateFlag in opts && StatusFlag in opts)
    || (DeleteFlag in opts && StatusFlag in opts)
  }

  /** Three options named and excluding one another as the tool declares its flags. */
  predicate DeclaredAsCli(cli: seq<ExclusiveOption>) {
    && |cli| == 3
    && cli[0].name == CreateFlag && cli[0].mutuallyExclusive == {DeleteFlag, StatusFlag}
    && cli[1].name == DeleteFlag && cli[1].mutuallyExclusive == {CreateFlag, StatusFlag}
    && cli[2].name == StatusFlag && cli[2].mutuallyExclusive == {CreateFlag, DeleteFlag}
  }

  lemma CliOptionsDeclared()
    ensures DeclaredAsCli(CliOptions())
  {
    var cli := CliOptions();
    assert cli[0].mutuallyExclusive == {DeleteFlag, StatusFlag};
    assert cli[1].mutuallyExclusive == {CreateFlag, StatusFlag};
    assert cli[2].mutuallyExclusive == {CreateFlag, DeleteFlag};
  }

  /** With flags declared as the tool declares them, any two given together
      are rejected, whichever two, and no flag or a single flag never is. */
  lemma DeclaredFlagsRejectExactlyTwo(cli: seq<ExclusiveOption>, opts: set<string>)
    requires DeclaredAsCli(cli)
    ensures ParseCommand(cli, opts).UsageError? <==> TwoFlagsGiven(opts)
  {
    var c, d, s := CreateFlag in opts, DeleteFlag in opts, StatusFlag in opts;
    var r0 := HandleParseResult(cli[0], opts).UsageError?;
    var r1 := HandleParseResult(cli[1], opts).UsageError?;
    var r2 := HandleParseResult(cli[2], opts).UsageError?;
    assert r0 <==> c && (d || s) by {
      if d { assert DeleteFlag in cli[0].mutuallyExclusive; }
      if s { assert StatusFlag in cli[0].mutuallyExclusive; }
    }
    assert r1 <==> d && (c || s) by {
      if c { assert CreateFlag in cli[1].mutuallyExclusive; }
      if s { assert StatusFlag in cli[1].mutuallyExclusive; }
    }
    assert r2 <==> s && (c || d) by {
      if c { assert CreateFlag in cli[2].mutuallyExclusive; }
      if d { assert DeleteFlag in cli[2].mutuallyExclusive; }
    }
    assert ParseCommand(cli, opts).UsageError? <==> r0 || r1 || r2;
  }

  /** Any two of the tool's three flags given together are rejected; no flag
      or a single flag never is. */
  lemma CliRejectsExactlyTwoFlags(opts: set<string>)
    ensures ParseCommand(CliOptions(), opts).UsageError? <==> TwoFlagsGiven(opts)
  {
    CliOptionsDeclared();
    DeclaredFlagsRejectExactlyTwo(CliOptions(), opts);
  }

  /** Among the tool's own flags, two are given together exactly when more than one is given. */
  lemma TwoFlagsMeansMoreThanOne(opts: set<string>)
    requires opts <= {CreateFlag, DeleteFlag, StatusFlag}
    ensures TwoFlagsGiven(opts) <==> |opts| >= 2
  {
    assert CreateFlag[0] != DeleteFlag[0] && CreateFlag[0] != StatusFlag[0] && DeleteFlag[0] != StatusFlag[0];
    var c, d, s := CreateFlag in opts, DeleteFlag in opts, StatusFlag in opts;
    if c && d && s {
      assert opts == {CreateFlag, DeleteFlag, StatusFlag};
    } else if c && d {
      assert opts == {CreateFlag, DeleteFlag};
    } else if c && s {
      assert opts == {CreateFlag, StatusFlag};
    } else if d && s {
      assert opts == {DeleteFlag, StatusFlag};
    } else if c {
      assert opts == {CreateFlag};
    } else if d {
      assert opts == {DeleteFlag};
    } else if s {
      assert opts == {StatusFlag};
    } else {
      assert opts == {};
    }
  }

  /** Among the tool's own flags: rejected exactly when more than one is given. */
  lemma CliRejectsMoreThanOneFlag(opts: set<string>)
    requires opts <= {CreateFlag, DeleteFlag, StatusFlag}
    ensures ParseCommand(CliOptions(), opts).UsageError? <==> |opts| >= 2
  {
    CliRejectsExactlyTwoFlags(opts);
    TwoFlagsMeansMoreThanOne(opts);
  }
}
