/** `upsert.Build` (pkg/database/sql/upsert): options, validation, and the statement with its
    numbered placeholders and argument list.  Assumed of the statement builder, as its tests
    show it: columns in sorted order, one numbering from left to right over the whole text,
    the conflict clause after the insert. */
module Upsert {
  import opened GoErrors
  import opened Columns
  import opened Decimal

  const ERR_INVALID_CONSTRAINT := Leaf(30, "must set at least one constraint")
  const ERR_INSERT_VALUES_IS_EMPTY := Leaf(31, "insert values must not be empty")
  const ERR_UPDATE_VALUES_IS_EMPTY := Leaf(32, "update values must not be empty")
  const ERR_INCOMPATIBLE_OPTIONS := Leaf(33, "incompatible options (WithOnConflictDoNothing, WithOnConflictUpdate)")
  const ERR_NO_TABLE := Leaf(34, "insert statements must specify a table")

  type ColumnMap<V> = map<string, V>

  /** `onConflictUpdate` is `None` for a nil map, which an empty map is not. */
  datatype Settings<V> = Settings(
    table: string,
    constraints: seq<string>,
    insertValues: ColumnMap<V>,
    onConflictUpdate: Option<ColumnMap<V>>,
    onConflictDoNothing: bool)

  datatype Opt<V> =
    | WithTable(name: string)
    | WithConstraints(names: seq<string>)
    | WithInsertValues(values: ColumnMap<V>)
    | WithOnConflictUpdate(update: Option<ColumnMap<V>>)
    | WithOnConflictDoNothing

  function ApplyOption<V>(s: Settings<V>, o: Opt<V>): Settings<V> {
    match o
    case WithTable(name) => s.(table := name)
    case WithConstraints(names) => s.(constraints := s.constraints + names)
    case WithInsertValues(values) => s.(insertValues := values)
    case WithOnConflictUpdate(update) => s.(onConflictUpdate := update)
    case WithOnConflictDoNothing => s.(onConflictDoNothing := true)
  }

  function Start<V>(): Settings<V> {
    Settings("", [], map[], None, false)
  }

  /** The settings after the first `n` options. */
  function Applied<V>(options: seq<Opt<V>>, n: nat): Settings<V>
    requires n <= |options|
  {
    if n == 0 then Start() else ApplyOption(Applied(options, n - 1), options[n - 1])
  }

  function UpdateColumns<V>(s: Settings<V>): ColumnMap<V> {
    if s.onConflictUpdate.Some? then s.onConflictUpdate.value else map[]
  }

  function Validate<V>(s: Settings<V>): Option<Error> {
    if s.constraints == [] && (UpdateColumns(s) != map[] || s.onConflictDoNothing) then Some(ERR_INVALID_CONSTRAINT)
    else if s.insertValues == map[] then Some(ERR_INSERT_VALUES_IS_EMPTY)
    else if s.onConflictUpdate == Some(map[]) then Some(ERR_UPDATE_VALUES_IS_EMPTY)
    else if s.onConflictDoNothing && UpdateColumns(s) != map[] then Some(ERR_INCOMPATIBLE_OPTIONS)
    else None
  }

  // ----- Options -----

  datatype Kind = Table | Constraints | InsertValues | ConflictUpdate | ConflictNothing

  function KindOf<V>(o: Opt<V>): Kind {
    match o
    case WithTable(_) => Table
    case WithConstraints(_) => Constraints
    case WithInsertValues(_) => InsertValues
    case WithOnConflictUpdate(_) => ConflictUpdate
    case WithOnConflictDoNothing => ConflictNothing
  }

  /** Options of different kinds do not interfere, so only their order within a kind matters. */
  lemma DifferentOptionsCommute<V>(s: Settings<V>, a: Opt<V>, b: Opt<V>)
    requires KindOf(a) != KindOf(b)
    ensures ApplyOption(ApplyOption(s, a), b) == ApplyOption(ApplyOption(s, b), a)
  {
  }

  /** Option `i` is the last one of its kind among the first `n`. */
  ghost predicate Last<V>(options: seq<Opt<V>>, i: nat, n: nat)
    requires i < n <= |options|
  {
    forall j :: i < j < n ==> KindOf(options[j]) != KindOf(options[i])
  }

  function AllConstraints<V>(options: seq<Opt<V>>, n: nat): seq<string>
    requires n <= |options|
  {
    if n == 0 then [] else
    AllConstraints(options, n - 1) + if options[n - 1].WithConstraints? then options[n - 1].names else []
  }

  /** Constraints accumulate in order, and a conflict no-op is asked for by any option that
      does. */
  lemma {:induction false} OptionsAccumulate<V>(options: seq<Opt<V>>, n: nat)
    requires n <= |options|
    ensures Applied(options, n).constraints == AllConstraints(options, n)
    ensures Applied(options, n).onConflictDoNothing <==> exists i :: 0 <= i < n && options[i].WithOnConflictDoNothing?
    decreases n
  {
    if n > 0 {
      OptionsAccumulate(options, n - 1);
    }
  }

  /** Later constraints come after earlier ones. */
  lemma ConstraintsInOrder<V>(first: seq<string>, second: seq<string>, table: string)
    ensures Applied<V>([WithConstraints(first), WithTable(table), WithConstraints(second)], 3) ==
            Settings(table, first + second, map[], None, false)
  {
    var options: seq<Opt<V>> := [WithConstraints(first), WithTable(table), WithConstraints(second)];
    assert Applied(options, 1) == Settings("", first, map[], None, false);
    assert Applied(options, 2) == Settings(table, first, map[], None, false);
  }

  function LastTable<V>(options: seq<Opt<V>>, n: nat): string
    requires n <= |options|
  {
    if n == 0 then "" else if options[n - 1].WithTable? then options[n - 1].name else LastTable(options, n - 1)
  }

  function LastInsert<V>(options: seq<Opt<V>>, n: nat): ColumnMap<V>
    requires n <= |options|
  {
    if n == 0 then map[]
    else if options[n - 1].WithInsertValues? then options[n - 1].values else LastInsert(options, n - 1)
  }

  function LastUpdate<V>(options: seq<Opt<V>>, n: nat): Option<ColumnMap<V>>
    requires n <= |options|
  {
    if n == 0 then None
    else if options[n - 1].WithOnConflictUpdate? then options[n - 1].update else LastUpdate(options, n - 1)
  }

  /** The settings in terms of the options: also what is not set. */
  lemma {:induction false} SettingsOfOptions<V>(options: seq<Opt<V>>, n: nat)
    requires n <= |options|
    ensures var s := Applied(options, n);
            && s.table == LastTable(options, n)
            && s.constraints == AllConstraints(options, n)
            && s.insertValues == LastInsert(options, n)
            && s.onConflictUpdate == LastUpdate(options, n)
            && (s.onConflictDoNothing <==> exists i :: 0 <= i < n && options[i].WithOnConflictDoNothing?)
    decreases n
  {
    if n > 0 {
      SettingsOfOptions(options, n - 1);
    }
  }

  // ----- Refused options -----

  ghost predicate AsksNothing<V>(options: seq<Opt<V>>) {
    exists i :: 0 <= i < |options| && options[i].WithOnConflictDoNothing?
  }

  /** Some column is to be updated on conflict. */
  ghost predicate AsksUpdate<V>(options: seq<Opt<V>>) {
    var update := LastUpdate(options, |options|);
    update.Some? && update.value.Keys != {}
  }

  /** The error of `Build`, if the options are refused. */
  function Refusal<V>(options: seq<Opt<V>>): Option<Error> {
    var s := Applied(options, |options|);
    if Validate(s).Some? then Validate(s) else if s.table == "" then Some(ERR_NO_TABLE) else None
  }

  lemma NoKeys<V>(m: ColumnMap<V>)
    ensures m.Keys == {} <==> m == map[]
  {
    if m.Keys == {} {
      assert forall k :: k !in m;
    }
  }

  /** Each refusal in terms of the options, in order of precedence. */
  lemma RefusalsAreExact<V>(options: seq<Opt<V>>)
    ensures var n := |options|;
            var conflict := AsksNothing(options) || AsksUpdate(options);
            var noConstraint := AllConstraints(options, n) == [] && conflict;
            var noInsert := LastInsert(options, n).Keys == {};
            var update := LastUpdate(options, n);
            var noUpdate := update.Some? && update.value.Keys == {};
            var both := AsksNothing(options) && AsksUpdate(options);
            var r := Refusal(options);
            && (r == Some(ERR_INVALID_CONSTRAINT) <==> noConstraint)
            && (r == Some(ERR_INSERT_VALUES_IS_EMPTY) <==> !noConstraint && noInsert)
            && (r == Some(ERR_UPDATE_VALUES_IS_EMPTY) <==> !noConstraint && !noInsert && noUpdate)
            && (r == Some(ERR_INCOMPATIBLE_OPTIONS) <==> !noConstraint && !noInsert && !noUpdate && both)
            && (r == Some(ERR_NO_TABLE) <==>
                !noConstraint && !noInsert && !noUpdate && !both && LastTable(options, n) == "")
            && (r == None <==>
                !noConstraint && !noInsert && !noUpdate && !both && LastTable(options, n) != "")
  {
    SettingsOfOptions(options, |options|);
    NoKeys(LastInsert(options, |options|));
    NoKeys(UpdateColumns(Applied(options, |options|)));
  }

  /** Of tables, insert values and update values the last option wins. */
  lemma {:induction false} LastOptionWins<V>(options: seq<Opt<V>>, i: nat, n: nat)
    requires i < n <= |options| && Last(options, i, n)
    ensures options[i].WithTable? ==> Applied(options, n).table == options[i].name
    ensures options[i].WithInsertValues? ==> Applied(options, n).insertValues == options[i].values
    ensures options[i].WithOnConflictUpdate? ==> Applied(options, n).onConflictUpdate == options[i].update
    decreases n
  {
    if i < n - 1 {
      LastOptionWins(options, i, n - 1);
    }
  }

  // ----- Statements -----

  /** A piece of a statement: fixed text, a name from the settings, an unnumbered placeholder,
      a numbered one. */
  datatype Token = Word(text: string) | Name(name: string) | Mark | Dollar(number: nat)

  datatype Tokens = End | Piece(head: Token, tail: Tokens)

  /** Names `i` and on, separated by commas, then `rest`. */
  function NameList(names: seq<string>, i: nat, rest: Tokens): Tokens
    requires i <= |names|
    decreases |names| - i
  {
    if i == |names| then rest
    else if i + 1 == |names| then Piece(Name(names[i]), rest)
    else Piece(Name(names[i]), Piece(Word(","), NameList(names, i + 1, rest)))
  }

  /** `n` placeholders separated by commas, then `rest`. */
  function MarkList(n: nat, rest: Tokens): Tokens {
    if n == 0 then rest
    else if n == 1 then Piece(Mark, rest)
    else Piece(Mark, Piece(Word(","), MarkList(n - 1, rest)))
  }

  /** A placeholder assigned to each of the names `i` and on. */
  function SetList(names: seq<string>, i: nat): Tokens
    requires i <= |names|
    decreases |names| - i
  {
    if i == |names| then End
    else Piece(Name(names[i]), Piece(Word(" = "), Piece(Mark,
           if i + 1 == |names| then End else Piece(Word(", "), SetList(names, i + 1)))))
  }

  /** What happens on a conflict. */
  datatype Action = NoAction | DoNothing(constraints: seq<string>) | Update(constraints: seq<string>, columns: seq<string>)

  function ConflictClause(action: Action): Tokens {
    match action
    case NoAction => End
    case DoNothing(constraints) =>
      Piece(Word(" ON CONFLICT("), NameList(constraints, 0, Piece(Word(") DO NOTHING"), End)))
    case Update(constraints, columns) =>
      Piece(Word(" ON CONFLICT("), NameList(constraints, 0, Piece(Word(") DO UPDATE   SET "), SetList(columns, 0))))
  }

  /** The insert, and what follows it. */
  function InsertClause(table: string, columns: seq<string>, rest: Tokens): Tokens {
    Piece(Word("INSERT INTO "), Piece(Name(table), Piece(Word(" ("), NameList(columns, 0,
      Piece(Word(") VALUES ("), MarkList(|columns|, Piece(Word(")"), rest)))))))
  }

  function Statement(table: string, columns: seq<string>, action: Action): Tokens {
    InsertClause(table, columns, ConflictClause(action))
  }

  /** Placeholders numbered from `k`, left to right. */
  function Numbered(tokens: Tokens, k: nat): Tokens {
    match tokens
    case End => End
    case Piece(Mark, tail) => Piece(Dollar(k), Numbered(tail, k + 1))
    case Piece(head, tail) => Piece(head, Numbered(tail, k))
  }

  function TokenText(t: Token): string {
    match t
    case Word(text) => text
    case Name(name) => name
    case Mark => "?"
    case Dollar(number) => "$" + Natural(number)
  }

  function SqlText(tokens: Tokens): string {
    match tokens
    case End => ""
    case Piece(head, tail) => TokenText(head) + SqlText(tail)
  }

  /** The numbering as it is done: on the text, replacing every `?` from left to right.  The
      escape `??` is not modelled. */
  function Renumber(text: string, k: nat): string {
    if text == "" then ""
    else if text[0] == '?' then "$" + Natural(k) + Renumber(text[1..], k + 1)
    else [text[0]] + Renumber(text[1..], k)
  }

  function ArgsOf<V>(m: ColumnMap<V>, columns: seq<string>): seq<V>
    requires forall c :: c in columns ==> c in m
  {
    seq(|columns|, i requires 0 <= i < |columns| => m[columns[i]])
  }

  datatype Query<V> = Query(text: string, args: seq<V>)

  function ActionFor<V>(s: Settings<V>, updateColumns: seq<string>): Action {
    if s.onConflictDoNothing then DoNothing(s.constraints)
    else if UpdateColumns(s) != map[] then Update(s.constraints, updateColumns)
    else NoAction
  }

  ghost function ActionOf<V>(s: Settings<V>): Action {
    ActionFor(s, SortedNames(UpdateColumns(s).Keys))
  }

  /** The statement for accepted settings, before the numbering. */
  ghost function TokensOf<V>(s: Settings<V>): Tokens {
    Statement(s.table, SortedNames(s.insertValues.Keys), ActionOf(s))
  }

  lemma NamesIn<V>(m: ColumnMap<V>)
    ensures forall c :: c in SortedNames(m.Keys) ==> c in m
  {
    forall c | c in SortedNames(m.Keys)
      ensures c in m
    {
      assert c in Names(SortedNames(m.Keys));
    }
  }

  ghost function ArgumentsOf<V>(s: Settings<V>): seq<V> {
    NamesIn(s.insertValues);
    NamesIn(UpdateColumns(s));
    ArgsOf(s.insertValues, SortedNames(s.insertValues.Keys)) +
    ArgsOf(UpdateColumns(s), SortedNames(UpdateColumns(s).Keys))
  }

  lemma NoArguments<V>(m: ColumnMap<V>)
    requires m == map[]
    ensures SortedNames(m.Keys) == []
  {
    if SortedNames(m.Keys) != [] { SomeNames(SortedNames(m.Keys)); }
  }

  /** Accepted settings give the numbered statement and its arguments; anything else gives the
      first error that applies and no statement. */
  method Build<V>(options: seq<Opt<V>>) returns (r: Result<Query<V>>)
    ensures r == match Refusal(options)
                 case Some(error) => Fail(error)
                 case None =>
                   var s := Applied(options, |options|);
                   Ok(Query(Renumber(SqlText(TokensOf(s)), 1), ArgumentsOf(s)))
  {
    var s: Settings<V> := Start();
    for i := 0 to |options|
      invariant s == Applied(options, i)
    {
      s := ApplyOption(s, options[i]);
    }
    var invalid := Validate(s);
    if invalid.Some? {
      return Fail(invalid.value);
    }
    var columns := SortedColumns(s.insertValues);
    NamesIn(s.insertValues);
    NamesIn(UpdateColumns(s));
    var args := ArgsOf(s.insertValues, columns);
    var action := NoAction;
    if s.onConflictDoNothing {
      action := DoNothing(s.constraints);
    }
    if UpdateColumns(s) != map[] {
      var updateColumns := SortedColumns(UpdateColumns(s));
      action := Update(s.constraints, updateColumns);
      args := args + ArgsOf(UpdateColumns(s), updateColumns);
    } else {
      NoArguments(UpdateColumns(s));
      assert args + ArgsOf(UpdateColumns(s), []) == args;
    }
    if s.table == "" {
      return Fail(ERR_NO_TABLE);
    }
    return Ok(Query(Renumber(SqlText(Statement(s.table, columns, action)), 1), args));
  }
}
