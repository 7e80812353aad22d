/** What the statements of `upsert.Build` bind and what can be read back from them. */
module UpsertGuarantees {
  import opened GoErrors
  import opened Columns
  import opened Decimal
  import opened Upsert

  // ----- Placeholders -----

  function Marks(tokens: Tokens): nat {
    match tokens
    case End => 0
    case Piece(head, tail) => (if head.Mark? then 1 else 0) + Marks(tail)
  }

  /** The numbers of the placeholders, read left to right. */
  function Numbers(tokens: Tokens): seq<nat> {
    match tokens
    case End => []
    case Piece(head, tail) => (if head.Dollar? then [head.number] else []) + Numbers(tail)
  }

  /** Tokens before the numbering: no number, and no `?` in fixed text. */
  predicate Raw(tokens: Tokens) {
    match tokens
    case End => true
    case Piece(head, tail) => !head.Dollar? && (head.Word? ==> '?' !in head.text) && Raw(tail)
  }

  /** No name holds a `?`, which the numbering would take for a placeholder. */
  predicate CleanNames(tokens: Tokens) {
    match tokens
    case End => true
    case Piece(head, tail) => (head.Name? ==> '?' !in head.name) && CleanNames(tail)
  }

  /** `k`, `k + 1` and on, `n` numbers. */
  function Count(k: nat, n: nat): seq<nat> {
    seq(n, i => k + i)
  }

  lemma CountCons(k: nat, n: nat)
    requires n > 0
    ensures Count(k, n) == [k] + Count(k + 1, n - 1)
  {
  }

  lemma {:induction false} NumberedInOrder(tokens: Tokens, k: nat)
    requires Raw(tokens)
    ensures Numbers(Numbered(tokens, k)) == Count(k, Marks(tokens))
    decreases tokens
  {
    match tokens
    case End =>
    case Piece(head, tail) =>
      NumberedInOrder(tail, if head.Mark? then k + 1 else k);
      if head.Mark? {
        CountCons(k, Marks(tokens));
      }
  }

  lemma {:induction false} NameListNumbers(names: seq<string>, i: nat, rest: Tokens, k: nat)
    requires i <= |names|
    ensures Numbered(NameList(names, i, rest), k) == NameList(names, i, Numbered(rest, k))
    ensures Marks(NameList(names, i, rest)) == Marks(rest)
    ensures Raw(NameList(names, i, rest)) <==> Raw(rest)
    decreases |names| - i
  {
    if i < |names| {
      NameListNumbers(names, i + 1, rest, k);
    }
  }

  /** The numbered form of a list of placeholders. */
  function DollarList(k: nat, n: nat, rest: Tokens): Tokens
    decreases n
  {
    if n == 0 then rest
    else if n == 1 then Piece(Dollar(k), rest)
    else Piece(Dollar(k), Piece(Word(","), DollarList(k + 1, n - 1, rest)))
  }

  lemma {:induction false} MarkListNumbers(n: nat, rest: Tokens, k: nat)
    ensures Numbered(MarkList(n, rest), k) == DollarList(k, n, Numbered(rest, k + n))
    ensures Marks(MarkList(n, rest)) == n + Marks(rest)
    ensures Raw(MarkList(n, rest)) <==> Raw(rest)
    decreases n
  {
    if n > 1 {
      MarkListNumbers(n - 1, rest, k + 1);
    }
  }

  /** The numbered form of the assignments. */
  function DollarSet(names: seq<string>, i: nat, k: nat): Tokens
    requires i <= |names|
    decreases |names| - i
  {
    if i == |names| then End
    else Piece(Name(names[i]), Piece(Word(" = "), Piece(Dollar(k),
           if i + 1 == |names| then End else Piece(Word(", "), DollarSet(names, i + 1, k + 1)))))
  }

  lemma {:induction false} SetListNumbers(names: seq<string>, i: nat, k: nat)
    requires i <= |names|
    ensures Numbered(SetList(names, i), k) == DollarSet(names, i, k)
    ensures Marks(SetList(names, i)) == |names| - i
    ensures Raw(SetList(names, i))
    decreases |names| - i
  {
    if i < |names| {
      SetListNumbers(names, i + 1, k + 1);
      var next := if i + 1 == |names| then End else Piece(Word(", "), SetList(names, i + 1));
      var value := Piece(Mark, next);
      assert Numbered(value, k) == Piece(Dollar(k), Numbered(next, k + 1));
      assert Marks(value) == 1 + Marks(next) && (Raw(value) <==> Raw(next));
    }
  }

  /** The conflict clause with its placeholders numbered from `k`. */
  function NumberedConflict(action: Action, k: nat): Tokens {
    match action
    case NoAction => End
    case DoNothing(constraints) =>
      Piece(Word(" ON CONFLICT("), NameList(constraints, 0, Piece(Word(") DO NOTHING"), End)))
    case Update(constraints, columns) =>
      Piece(Word(" ON CONFLICT("), NameList(constraints, 0, Piece(Word(") DO UPDATE   SET "), DollarSet(columns, 0, k))))
  }

  lemma WordNumbers(text: string, rest: Tokens, k: nat)
    requires '?' !in text
    ensures Numbered(Piece(Word(text), rest), k) == Piece(Word(text), Numbered(rest, k))
    ensures Marks(Piece(Word(text), rest)) == Marks(rest)
    ensures Raw(Piece(Word(text), rest)) <==> Raw(rest)
  {
  }

  lemma ConflictNumbers(action: Action, k: nat)
    ensures Numbered(ConflictClause(action), k) == NumberedConflict(action, k)
    ensures Marks(ConflictClause(action)) == if action.Update? then |action.columns| else 0
    ensures Raw(ConflictClause(action))
  {
    match action
    case NoAction =>
    case DoNothing(constraints) =>
      var rest := Piece(Word(") DO NOTHING"), End);
      WordNumbers(") DO NOTHING", End, k);
      NameListNumbers(constraints, 0, rest, k);
      WordNumbers(" ON CONFLICT(", NameList(constraints, 0, rest), k);
    case Update(constraints, columns) =>
      var rest := Piece(Word(") DO UPDATE   SET "), SetList(columns, 0));
      SetListNumbers(columns, 0, k);
      WordNumbers(") DO UPDATE   SET ", SetList(columns, 0), k);
      NameListNumbers(constraints, 0, rest, k);
      WordNumbers(" ON CONFLICT(", NameList(constraints, 0, rest), k);
  }

  function NumberedInsert(table: string, columns: seq<string>, rest: Tokens): Tokens {
    Piece(Word("INSERT INTO "), Piece(Name(table), Piece(Word(" ("), NameList(columns, 0,
      Piece(Word(") VALUES ("), DollarList(1, |columns|, Piece(Word(")"), rest)))))))
  }

  lemma InsertNumbers(table: string, columns: seq<string>, rest: Tokens)
    requires Raw(rest)
    ensures Numbered(InsertClause(table, columns, rest), 1) ==
            NumberedInsert(table, columns, Numbered(rest, |columns| + 1))
    ensures Marks(InsertClause(table, columns, rest)) == |columns| + Marks(rest)
    ensures Raw(InsertClause(table, columns, rest))
  {
    var closed := Piece(Word(")"), rest);
    var values := Piece(Word(") VALUES ("), MarkList(|columns|, closed));
    MarkListNumbers(|columns|, closed, 1);
    NameListNumbers(columns, 0, values, 1);
    var open := Piece(Word(" ("), NameList(columns, 0, values));
    assert Numbered(open, 1) == Piece(Word(" ("), NameList(columns, 0, Numbered(values, 1)));
    assert Marks(open) == |columns| + Marks(rest) && Raw(open);
  }

  lemma StatementNumbers(table: string, columns: seq<string>, action: Action)
    ensures Numbered(Statement(table, columns, action), 1) ==
            NumberedInsert(table, columns, NumberedConflict(action, |columns| + 1))
    ensures Marks(Statement(table, columns, action)) == |columns| + if action.Update? then |action.columns| else 0
    ensures Raw(Statement(table, columns, action))
  {
    ConflictNumbers(action, |columns| + 1);
    InsertNumbers(table, columns, ConflictClause(action));
  }

  // ----- The numbering of the text -----

  function Occurrences(s: string): nat {
    if s == "" then 0 else (if s[0] == '?' then 1 else 0) + Occurrences(s[1..])
  }

  lemma {:induction false} OccurrencesConcat(a: string, b: string)
    ensures Occurrences(a + b) == Occurrences(a) + Occurrences(b)
    ensures Occurrences(a) == 0 <==> '?' !in a
    decreases |a|
  {
    if a == "" {
      assert a + b == b;
    } else {
      assert (a + b)[1..] == a[1..] + b;
      OccurrencesConcat(a[1..], b);
    }
  }

  lemma {:induction false} RenumberSkips(a: string, b: string, k: nat)
    requires '?' !in a
    ensures Renumber(a + b, k) == a + Renumber(b, k)
    decreases |a|
  {
    if a == "" {
      assert a + b == b;
    } else {
      assert (a + b)[1..] == a[1..] + b;
      RenumberSkips(a[1..], b, k);
    }
  }

  lemma RenumberTakes(b: string, k: nat)
    ensures Renumber("?" + b, k) == "$" + Natural(k) + Renumber(b, k + 1)
  {
    assert ("?" + b)[1..] == b;
  }

  /** Numbering the text is numbering its pieces, when no name holds a `?`. */
  lemma {:induction false} RenumberIsNumbered(tokens: Tokens, k: nat)
    requires CleanNames(tokens) && Raw(tokens)
    ensures Renumber(SqlText(tokens), k) == SqlText(Numbered(tokens, k))
    decreases tokens
  {
    match tokens
    case End =>
    case Piece(head, tail) =>
      if head.Mark? {
        RenumberIsNumbered(tail, k + 1);
        RenumberTakes(SqlText(tail), k);
      } else {
        RenumberIsNumbered(tail, k);
        RenumberSkips(TokenText(head), SqlText(tail), k);
      }
  }

  /** How many placeholders the text-wide numbering makes: those of the statement, and one for
      every `?` inside a name.  So their number is that of the statement exactly when no name
      holds a `?`. */
  lemma {:induction false} StrayPlaceholders(tokens: Tokens)
    requires Raw(tokens)
    ensures Occurrences(SqlText(tokens)) >= Marks(tokens)
    ensures Occurrences(SqlText(tokens)) == Marks(tokens) <==> CleanNames(tokens)
    decreases tokens
  {
    match tokens
    case End =>
    case Piece(head, tail) =>
      StrayPlaceholders(tail);
      OccurrencesConcat(TokenText(head), SqlText(tail));
      if head.Mark? {
        assert "?"[1..] == "";
        assert Occurrences("?") == 1;
      }
  }

  // ----- Reading a statement back -----

  /** A statement as it is read: the columns and the numbers of their placeholders, for the
      insert and, on conflict, for the update. */
  datatype Parsed = Parsed(
    table: string,
    columns: seq<string>,
    numbers: seq<nat>,
    conflict: Conflict)

  datatype Conflict =
    | Unhandled
    | Ignored(constraints: seq<string>)
    | Updated(constraints: seq<string>, columns: seq<string>, numbers: seq<nat>)

  /** Names separated by commas, and what follows them. */
  function ReadNames(tokens: Tokens): (seq<string>, Tokens) {
    match tokens
    case Piece(Name(name), Piece(Word(w), tail)) =>
      if w == "," then ([name] + ReadNames(tail).0, ReadNames(tail).1) else ([name], tokens.tail)
    case Piece(Name(name), tail) => ([name], tail)
    case _ => ([], tokens)
  }

  function ReadNumbers(tokens: Tokens): (seq<nat>, Tokens) {
    match tokens
    case Piece(Dollar(number), Piece(Word(w), tail)) =>
      if w == "," then ([number] + ReadNumbers(tail).0, ReadNumbers(tail).1) else ([number], tokens.tail)
    case Piece(Dollar(number), tail) => ([number], tail)
    case _ => ([], tokens)
  }

  /** Assignments of a placeholder to a column, up to the end. */
  function ReadSets(tokens: Tokens): Option<(seq<string>, seq<nat>)> {
    match tokens
    case Piece(Name(name), Piece(Word(equals), Piece(Dollar(number), tail))) =>
      if equals != " = " then None
      else if tail.End? then Some(([name], [number]))
      else if tail.head != Word(", ") then None
      else
        (match ReadSets(tail.tail)
         case None => None
         case Some(sets) => Some(([name] + sets.0, [number] + sets.1)))
    case _ => None
  }

  function ParseConflict(table: string, columns: seq<string>, numbers: seq<nat>, tokens: Tokens): Option<Parsed> {
    if tokens.End? then Some(Parsed(table, columns, numbers, Unhandled))
    else if tokens.head != Word(" ON CONFLICT(") then None
    else
      var (constraints, rest) := ReadNames(tokens.tail);
      if rest == Piece(Word(") DO NOTHING"), End) then
        Some(Parsed(table, columns, numbers, Ignored(constraints)))
      else if rest.End? || rest.head != Word(") DO UPDATE   SET ") then None
      else
        match ReadSets(rest.tail)
        case None => None
        case Some(sets) => Some(Parsed(table, columns, numbers, Updated(constraints, sets.0, sets.1)))
  }

  function Parse(tokens: Tokens): Option<Parsed> {
    match tokens
    case Piece(Word(insert), Piece(Name(table), Piece(Word(open), tail))) =>
      var (columns, rest) := ReadNames(tail);
      if insert != "INSERT INTO " || open != " (" || rest.End? || rest.head != Word(") VALUES (") then None
      else
        var (numbers, rest2) := ReadNumbers(rest.tail);
        if rest2.End? || rest2.head != Word(")") then None
        else ParseConflict(table, columns, numbers, rest2.tail)
    case _ => None
  }

  /** What may stand after a list: other text than its separator. */
  predicate Stops(rest: Tokens) {
    rest.Piece? && rest.head.Word? && rest.head.text != ","
  }

  lemma {:induction false} ReadsNames(names: seq<string>, i: nat, rest: Tokens)
    requires i <= |names| && Stops(rest)
    ensures ReadNames(NameList(names, i, rest)) == (names[i..], rest)
    decreases |names| - i
  {
    if i < |names| {
      ReadsNames(names, i + 1, rest);
      assert names[i..] == [names[i]] + names[i + 1..];
      assert i + 1 == |names| ==> names[i..] == [names[i]];
    } else {
      assert names[i..] == [];
    }
  }

  lemma {:induction false} ReadsNumbers(k: nat, n: nat, rest: Tokens)
    requires Stops(rest)
    ensures ReadNumbers(DollarList(k, n, rest)) == (Count(k, n), rest)
    decreases n
  {
    if n > 0 {
      ReadsNumbers(k + 1, n - 1, rest);
      CountCons(k, n);
      assert n == 1 ==> Count(k, n) == [k];
    } else {
      assert Count(k, n) == [];
    }
  }

  lemma {:induction false} ReadsSets(names: seq<string>, i: nat, k: nat)
    requires i < |names|
    ensures ReadSets(DollarSet(names, i, k)) == Some((names[i..], Count(k, |names| - i)))
    decreases |names| - i
  {
    CountCons(k, |names| - i);
    assert names[i..] == [names[i]] + names[i + 1..];
    assert i + 1 == |names| ==> names[i..] == [names[i]] && Count(k, |names| - i) == [k];
    if i + 1 < |names| {
      ReadsSets(names, i + 1, k + 1);
    }
  }

  /** What a conflict clause reads as, with its placeholders numbered from `k`. */
  function ConflictReading(action: Action, k: nat): Conflict {
    match action
    case NoAction => Unhandled
    case DoNothing(constraints) => Ignored(constraints)
    case Update(constraints, updates) => Updated(constraints, updates, Count(k, |updates|))
  }

  /** What a statement reads as. */
  function Reading(table: string, columns: seq<string>, action: Action): Parsed {
    Parsed(table, columns, Count(1, |columns|), ConflictReading(action, |columns| + 1))
  }

  lemma InsertReads(table: string, columns: seq<string>, rest: Tokens)
    ensures Parse(NumberedInsert(table, columns, rest)) == ParseConflict(table, columns, Count(1, |columns|), rest)
  {
    var closed := Piece(Word(")"), rest);
    var values := Piece(Word(") VALUES ("), DollarList(1, |columns|, closed));
    ReadsNames(columns, 0, values);
    ReadsNumbers(1, |columns|, closed);
    assert columns[0..] == columns;
  }

  lemma ConflictReads(table: string, columns: seq<string>, action: Action)
    requires action.Update? ==> action.columns != []
    ensures ParseConflict(table, columns, Count(1, |columns|), NumberedConflict(action, |columns| + 1)) ==
            Some(Reading(table, columns, action))
  {
    match action
    case NoAction =>
    case DoNothing(constraints) =>
      ReadsNames(constraints, 0, Piece(Word(") DO NOTHING"), End));
      assert constraints[0..] == constraints;
    case Update(constraints, updates) =>
      ReadsNames(constraints, 0, Piece(Word(") DO UPDATE   SET "), DollarSet(updates, 0, |columns| + 1)));
      ReadsSets(updates, 0, |columns| + 1);
      assert constraints[0..] == constraints && updates[0..] == updates;
  }

  /** Reading a numbered statement gives back its table, columns and conflict action, with
      placeholders 1 to n in order across the seam between the two clauses. */
  lemma StatementReadsBack(table: string, columns: seq<string>, action: Action)
    requires action.Update? ==> action.columns != []
    ensures Parse(Numbered(Statement(table, columns, action), 1)) == Some(Reading(table, columns, action))
  {
    StatementNumbers(table, columns, action);
    InsertReads(table, columns, NumberedConflict(action, |columns| + 1));
    ConflictReads(table, columns, action);
  }

  // ----- The whole query -----

  /** Every placeholder has its argument. */
  predicate InRange<V>(numbers: seq<nat>, args: seq<V>) {
    forall i :: 0 <= i < |numbers| ==> 1 <= numbers[i] <= |args|
  }

  /** The first `n` columns with the values their placeholders bind. */
  function Bound<V>(columns: seq<string>, numbers: seq<nat>, args: seq<V>, n: nat): ColumnMap<V>
    requires n <= |columns| == |numbers| && InRange(numbers, args)
  {
    if n == 0 then map[] else Bound(columns, numbers, args, n - 1)[columns[n - 1] := args[numbers[n - 1] - 1]]
  }

  lemma {:induction false} BoundIs<V>(m: ColumnMap<V>, columns: seq<string>, numbers: seq<nat>, args: seq<V>, n: nat)
    requires n <= |columns| == |numbers| && InRange(numbers, args)
    requires forall i :: 0 <= i < |columns| ==> columns[i] in m && args[numbers[i] - 1] == m[columns[i]]
    ensures forall i :: 0 <= i < n ==> columns[i] in Bound(columns, numbers, args, n)
    ensures forall c :: c in Bound(columns, numbers, args, n) ==> c in m && Bound(columns, numbers, args, n)[c] == m[c]
    decreases n
  {
    if n > 0 {
      BoundIs(m, columns, numbers, args, n - 1);
    }
  }

  /** From position `start` on, the arguments are the values of a map in column order. */
  ghost predicate Carries<V>(m: ColumnMap<V>, columns: seq<string>, args: seq<V>, start: nat) {
    && start + |columns| <= |args|
    && forall i :: 0 <= i < |columns| ==> columns[i] in m && args[start + i] == m[columns[i]]
  }

  predicate Fits<V>(columns: seq<string>, numbers: seq<nat>, args: seq<V>) {
    |columns| == |numbers| && InRange(numbers, args)
  }

  ghost predicate Binds<V>(columns: seq<string>, numbers: seq<nat>, args: seq<V>, m: ColumnMap<V>) {
    Fits(columns, numbers, args) && Bound(columns, numbers, args, |columns|) == m
  }

  /** A part of the arguments that are the values of a map in column order, bound by the
      placeholders with the same positions, gives the map. */
  lemma BindsPart<V>(m: ColumnMap<V>, columns: seq<string>, args: seq<V>, start: nat)
    requires Names(columns) == m.Keys && Carries(m, columns, args, start)
    ensures Binds(columns, Count(start + 1, |columns|), args, m)
  {
    var numbers := Count(start + 1, |columns|);
    BoundIs(m, columns, numbers, args, |columns|);
    forall c | c in m
      ensures c in Bound(columns, numbers, args, |columns|)
    {
      assert c in Names(columns);
    }
  }

  /** The settings that matter: constraints without a conflict action appear nowhere. */
  function Effective<V>(s: Settings<V>): Settings<V> {
    if s.onConflictDoNothing || UpdateColumns(s) != map[] then s else s.(constraints := [])
  }

  predicate WellBound<V>(p: Parsed, args: seq<V>) {
    && Fits(p.columns, p.numbers, args)
    && (p.conflict.Updated? ==> Fits(p.conflict.columns, p.conflict.numbers, args))
  }

  function ConstraintsOf(conflict: Conflict): seq<string> {
    if conflict.Unhandled? then [] else conflict.constraints
  }

  /** The settings a parsed statement and its arguments stand for. */
  function SettingsOf<V>(p: Parsed, args: seq<V>): Settings<V>
    requires WellBound(p, args)
  {
    Settings(p.table, ConstraintsOf(p.conflict), Bound(p.columns, p.numbers, args, |p.columns|),
             if p.conflict.Updated?
             then Some(Bound(p.conflict.columns, p.conflict.numbers, args, |p.conflict.columns|))
             else None,
             p.conflict.Ignored?)
  }

  ghost predicate Accepted<V>(s: Settings<V>) {
    Validate(s).None? && s.table != ""
  }

  lemma NamesAreKeys<V>(m: ColumnMap<V>, columns: seq<string>)
    requires Names(columns) == m.Keys
    ensures forall c :: c in columns ==> c in m
    ensures m == map[] <==> columns == []
  {
    forall c | c in columns
      ensures c in m
    {
      assert c in Names(columns);
    }
    if columns != [] { SomeNames(columns); }
  }

  /** Accepted settings have at most one conflict action. */
  lemma OneAction<V>(s: Settings<V>)
    requires Validate(s).None?
    ensures UpdateColumns(s) == map[] ==> s.onConflictUpdate == None
    ensures UpdateColumns(s) != map[] ==> s.onConflictUpdate == Some(UpdateColumns(s)) && !s.onConflictDoNothing
  {
  }

  /** A reading whose placeholders bind the insert and the update values stands for the
      settings. */
  lemma AgreesWithSettings<V>(s: Settings<V>, p: Parsed, updateColumns: seq<string>, k: nat, args: seq<V>)
    requires Validate(s).None?
    requires p.table == s.table && p.conflict == ConflictReading(ActionFor(s, updateColumns), k)
    requires Binds(p.columns, p.numbers, args, s.insertValues)
    requires p.conflict.Updated? ==> Binds(p.conflict.columns, p.conflict.numbers, args, UpdateColumns(s))
    ensures WellBound(p, args) && SettingsOf(p, args) == Effective(s)
  {
    OneAction(s);
  }

  /** What the statement reads as, bound to the arguments, stands for the settings. */
  lemma ReadingBinds<V>(s: Settings<V>, p: Parsed, columns: seq<string>, updateColumns: seq<string>, args: seq<V>)
    requires Validate(s).None?
    requires p == Reading(s.table, columns, ActionFor(s, updateColumns))
    requires Names(columns) == s.insertValues.Keys && Carries(s.insertValues, columns, args, 0)
    requires Names(updateColumns) == UpdateColumns(s).Keys
    requires Carries(UpdateColumns(s), updateColumns, args, |columns|)
    ensures WellBound(p, args) && SettingsOf(p, args) == Effective(s)
  {
    BindsPart(s.insertValues, columns, args, 0);
    BindsPart(UpdateColumns(s), updateColumns, args, |columns|);
    AgreesWithSettings(s, p, updateColumns, |columns| + 1, args);
  }

  /** For every accepted setting the placeholders, left to right, are exactly 1 to n with n the
      number of arguments. */
  lemma PlaceholdersMatchArguments<V>(s: Settings<V>)
    requires Accepted(s)
    ensures Marks(TokensOf(s)) == |ArgumentsOf(s)|
    ensures Numbers(Numbered(TokensOf(s), 1)) == Count(1, |ArgumentsOf(s)|)
  {
    NamesAreKeys(UpdateColumns(s), SortedNames(UpdateColumns(s).Keys));
    StatementNumbers(s.table, SortedNames(s.insertValues.Keys), ActionOf(s));
    NumberedInOrder(TokensOf(s), 1);
  }

  lemma ArgumentsCarry<V>(s: Settings<V>)
    ensures Carries(s.insertValues, SortedNames(s.insertValues.Keys), ArgumentsOf(s), 0)
    ensures Carries(UpdateColumns(s), SortedNames(UpdateColumns(s).Keys), ArgumentsOf(s), |SortedNames(s.insertValues.Keys)|)
  {
    NamesAreKeys(s.insertValues, SortedNames(s.insertValues.Keys));
    NamesAreKeys(UpdateColumns(s), SortedNames(UpdateColumns(s).Keys));
  }

  lemma ReadsBackAs<V>(s: Settings<V>, columns: seq<string>, updateColumns: seq<string>, tokens: Tokens, args: seq<V>)
    requires Validate(s).None?
    requires Names(columns) == s.insertValues.Keys && Carries(s.insertValues, columns, args, 0)
    requires Names(updateColumns) == UpdateColumns(s).Keys
    requires Carries(UpdateColumns(s), updateColumns, args, |columns|)
    requires tokens == Statement(s.table, columns, ActionFor(s, updateColumns))
    ensures var p := Parse(Numbered(tokens, 1));
            p.Some? && WellBound(p.value, args) && SettingsOf(p.value, args) == Effective(s)
  {
    NamesAreKeys(UpdateColumns(s), updateColumns);
    var action := ActionFor(s, updateColumns);
    StatementReadsBack(s.table, columns, action);
    ReadingBinds(s, Reading(s.table, columns, action), columns, updateColumns, args);
  }

  lemma LostConstraints<V>(s: Settings<V>)
    ensures Effective(s) == s <==> s.onConflictDoNothing || UpdateColumns(s) != map[] || s.constraints == []
  {
  }

  /** Round trip: reading the statement of an accepted setting and binding its arguments gives
      back the table, the insert values, the conflict action, its values and its constraints in
      order.  The constraints are kept exactly when there is a conflict action or none were
      given.  The statement is never incomplete: it has a table, insert columns, and for a
      conflict action constraints. */
  lemma BuildReadsBack<V>(s: Settings<V>)
    requires Accepted(s)
    ensures var p := Parse(Numbered(TokensOf(s), 1));
            p.Some? && WellBound(p.value, ArgumentsOf(s)) && SettingsOf(p.value, ArgumentsOf(s)) == Effective(s)
    ensures Effective(s) == s <==> s.onConflictDoNothing || UpdateColumns(s) != map[] || s.constraints == []
    ensures var p := Parse(Numbered(TokensOf(s), 1)).value;
            && p.table != "" && p.columns != []
            && (!p.conflict.Unhandled? ==> p.conflict.constraints != [])
            && (p.conflict.Updated? ==> p.conflict.columns != [])
  {
    LostConstraints(s);
    ArgumentsCarry(s);
    StatementReadsBack(s.table, SortedNames(s.insertValues.Keys), ActionOf(s));
    NamesAreKeys(s.insertValues, SortedNames(s.insertValues.Keys));
    NamesAreKeys(UpdateColumns(s), SortedNames(UpdateColumns(s).Keys));
    ReadsBackAs(s, SortedNames(s.insertValues.Keys), SortedNames(UpdateColumns(s).Keys), TokensOf(s), ArgumentsOf(s));
  }

  /** The query text itself: when no name holds a `?` it is the text of the numbered statement;
      otherwise, and only then, it has more placeholders than there are arguments.  Every `?`
      counts as one here; the builder's escape `??` is not modelled. */
  lemma QueryText<V>(s: Settings<V>)
    requires Accepted(s)
    ensures CleanNames(TokensOf(s)) ==> Renumber(SqlText(TokensOf(s)), 1) == SqlText(Numbered(TokensOf(s), 1))
    ensures Occurrences(SqlText(TokensOf(s))) == |ArgumentsOf(s)| <==> CleanNames(TokensOf(s))
  {
    StatementNumbers(s.table, SortedNames(s.insertValues.Keys), ActionOf(s));
    PlaceholdersMatchArguments(s);
    StrayPlaceholders(TokensOf(s));
    if CleanNames(TokensOf(s)) {
      RenumberIsNumbered(TokensOf(s), 1);
    }
  }

  // ----- The documented statement -----

  lemma TextOfPair(head: Token, word: string, tail: Tokens)
    ensures SqlText(Piece(head, Piece(Word(word), tail))) == TokenText(head) + (word + SqlText(tail))
  {
    assert SqlText(Piece(Word(word), tail)) == word + SqlText(tail);
  }

  lemma TextOfThreeNames(names: seq<string>, rest: Tokens)
    requires |names| == 3
    ensures SqlText(NameList(names, 0, rest)) ==
            names[0] + ("," + (names[1] + ("," + (names[2] + SqlText(rest)))))
  {
    assert NameList(names, 2, rest) == Piece(Name(names[2]), rest);
    TextOfPair(Name(names[1]), ",", NameList(names, 2, rest));
    TextOfPair(Name(names[0]), ",", NameList(names, 1, rest));
  }

  lemma TextOfThreeDollars(k: nat, n: nat, rest: Tokens)
    requires n == 3
    ensures SqlText(DollarList(k, n, rest)) ==
            TokenText(Dollar(k)) + ("," + (TokenText(Dollar(k + 1)) + ("," + (TokenText(Dollar(k + 2)) + SqlText(rest)))))
  {
    assert DollarList(k + 2, n - 2, rest) == Piece(Dollar(k + 2), rest);
    assert SqlText(DollarList(k + 2, n - 2, rest)) == TokenText(Dollar(k + 2)) + SqlText(rest);
    TextOfPair(Dollar(k + 1), ",", DollarList(k + 2, n - 2, rest));
    TextOfPair(Dollar(k), ",", DollarList(k + 1, n - 1, rest));
  }

  lemma TextOfDigit(k: nat, digit: char)
    requires k < 10 && digit == (k + '0' as int) as char
    ensures TokenText(Dollar(k)) == ['$', digit]
  {
    assert Natural(k) == [digit];
  }

  lemma TextOfConflict(constraint: string, column: string, action: Action)
    requires action == Update([constraint], [column])
    ensures SqlText(NumberedConflict(action, 4)) ==
            " ON CONFLICT(" + (constraint + (") DO UPDATE   SET " + (column + (" = " + ("$4" + "")))))
  {
    assert Natural(4) == "4";
    var sets := DollarSet([column], 0, 4);
    assert sets == Piece(Name(column), Piece(Word(" = "), Piece(Dollar(4), End)));
    assert SqlText(Piece(Dollar(4), End)) == "$4" + "";
    TextOfPair(Name(column), " = ", Piece(Dollar(4), End));
    var rest := Piece(Word(") DO UPDATE   SET "), sets);
    assert NameList([constraint], 0, rest) == Piece(Name(constraint), rest);
    TextOfPair(Name(constraint), ") DO UPDATE   SET ", sets);
    assert NumberedConflict(action, 4) == Piece(Word(" ON CONFLICT("), Piece(Name(constraint), rest));
  }

  lemma TextOfStatement(table: string, columns: seq<string>, rest: Tokens)
    requires |columns| == 3
    ensures SqlText(NumberedInsert(table, columns, rest)) ==
            "INSERT INTO " + (table + (" (" + (columns[0] + ("," + (columns[1] + ("," + (columns[2] + (") VALUES (" +
            ("$1" + ("," + ("$2" + ("," + ("$3" + (")" + SqlText(rest)))))))))))))))
  {
    var closed := Piece(Word(")"), rest);
    var values := Piece(Word(") VALUES ("), DollarList(1, |columns|, closed));
    TextOfThreeDollars(1, |columns|, closed);
    TextOfDigit(1, '1');
    TextOfDigit(2, '2');
    TextOfDigit(3, '3');
    TextOfThreeNames(columns, values);
    var open := Piece(Word(" ("), NameList(columns, 0, values));
    assert SqlText(open) == " (" + SqlText(NameList(columns, 0, values));
    assert SqlText(Piece(Name(table), open)) == table + SqlText(open);
  }

  lemma NamesOfBets()
    ensures '?' !in "bets" && '?' !in "id" && '?' !in "status"
    ensures forall name :: name in ["amount", "id", "status"] ==> '?' !in name
  {
  }

  lemma SortedBets()
    ensures Sorted(["amount", "id", "status"])
  {
    assert "amount"[0] < "id"[0] < "status"[0];
    assert Less("amount", "id") && Less("id", "status") && Less("amount", "status");
  }

  /** The settings of the documented statement. */
  function Bets<V>(id: V, amount: V, status: V): Settings<V> {
    Settings("bets", ["id"], map["id" := id, "amount" := amount, "status" := status],
             Some(map["status" := status]), false)
  }

  lemma SortedAs(keys: set<string>, names: seq<string>)
    requires Sorted(names) && forall k :: k in names <==> k in keys
    ensures SortedNames(keys) == names
  {
    SortedIsUnique(SortedNames(keys), names);
  }

  lemma ColumnsOfBets<V>(id: V, amount: V, status: V)
    ensures var s := Bets(id, amount, status);
            && SortedNames(s.insertValues.Keys) == ["amount", "id", "status"]
            && SortedNames(UpdateColumns(s).Keys) == ["status"]
            && ActionOf(s) == Update(["id"], ["status"])
  {
    var s := Bets(id, amount, status);
    SortedBets();
    SortedAs(s.insertValues.Keys, ["amount", "id", "status"]);
    SortedAs(UpdateColumns(s).Keys, ["status"]);
    assert "status" in UpdateColumns(s);
  }

  lemma ThreeArguments<V>(m: ColumnMap<V>, columns: seq<string>)
    requires |columns| == 3 && columns[0] in m && columns[1] in m && columns[2] in m
    ensures (forall c :: c in columns ==> c in m) && ArgsOf(m, columns) == [m[columns[0]], m[columns[1]], m[columns[2]]]
  {
  }

  lemma ArgumentsOfBets<V>(id: V, amount: V, status: V)
    ensures ArgumentsOf(Bets(id, amount, status)) == [amount, id, status, status]
  {
    var s := Bets(id, amount, status);
    ColumnsOfBets(id, amount, status);
    assert "amount"[0] != "id"[0] && "amount"[0] != "status"[0] && "id"[0] != "status"[0];
    ThreeArguments(s.insertValues, ["amount", "id", "status"]);
    NamesIn(UpdateColumns(s));
    assert ArgsOf(UpdateColumns(s), ["status"]) == [status];
  }

  lemma {:induction false} CleanList(names: seq<string>, i: nat, rest: Tokens)
    requires i <= |names| && forall name :: name in names ==> '?' !in name
    ensures CleanNames(NameList(names, i, rest)) <==> CleanNames(rest)
    decreases |names| - i
  {
    if i < |names| {
      CleanList(names, i + 1, rest);
    }
  }

  lemma {:induction false} CleanMarks(n: nat, rest: Tokens)
    ensures CleanNames(MarkList(n, rest)) <==> CleanNames(rest)
    decreases n
  {
    if n > 1 {
      CleanMarks(n - 1, rest);
    }
  }

  lemma CleanStatement(table: string, columns: seq<string>, rest: Tokens)
    requires '?' !in table && forall name :: name in columns ==> '?' !in name
    ensures CleanNames(InsertClause(table, columns, rest)) <==> CleanNames(rest)
  {
    var closed := Piece(Word(")"), rest);
    var values := Piece(Word(") VALUES ("), MarkList(|columns|, closed));
    CleanMarks(|columns|, closed);
    CleanList(columns, 0, values);
    var open := Piece(Word(" ("), NameList(columns, 0, values));
    assert CleanNames(Piece(Name(table), open)) <==> CleanNames(open);
  }

  lemma CleanConflict(constraint: string, column: string, action: Action)
    requires action == Update([constraint], [column]) && '?' !in constraint && '?' !in column
    ensures CleanNames(ConflictClause(action))
  {
    var sets := SetList([column], 0);
    assert sets == Piece(Name(column), Piece(Word(" = "), Piece(Mark, End)));
    assert CleanNames(Piece(Word(" = "), Piece(Mark, End))) by { assert CleanNames(Piece(Mark, End)); }
    CleanList([constraint], 0, Piece(Word(") DO UPDATE   SET "), sets));
  }

  /** The text of an upsert of three columns that updates one, word by word. */
  lemma UpsertText(table: string, columns: seq<string>, constraint: string, column: string, action: Action)
    requires |columns| == 3 && action == Update([constraint], [column])
    requires '?' !in table && '?' !in constraint && '?' !in column && forall name :: name in columns ==> '?' !in name
    ensures Renumber(SqlText(Statement(table, columns, action)), 1) ==
            "INSERT INTO " + (table + (" (" + (columns[0] + ("," + (columns[1] + ("," + (columns[2] + (") VALUES (" +
            ("$1" + ("," + ("$2" + ("," + ("$3" + (")" + (" ON CONFLICT(" + (constraint + (") DO UPDATE   SET " +
            (column + (" = " + ("$4" + ""))))))))))))))))))))
  {
    CleanConflict(constraint, column, action);
    CleanStatement(table, columns, ConflictClause(action));
    StatementNumbers(table, columns, action);
    RenumberIsNumbered(Statement(table, columns, action), 1);
    TextOfConflict(constraint, column, action);
    TextOfStatement(table, columns, NumberedConflict(action, 4));
  }

  /** The text of a plain insert, and of one that ignores conflicts. */
  lemma InsertText(table: string, columns: seq<string>, constraint: string, action: Action)
    requires |columns| == 3 && action == DoNothing([constraint])
    requires '?' !in table && '?' !in constraint && forall name :: name in columns ==> '?' !in name
    ensures Renumber(SqlText(Statement(table, columns, NoAction)), 1) ==
            "INSERT INTO " + (table + (" (" + (columns[0] + ("," + (columns[1] + ("," + (columns[2] + (") VALUES (" +
            ("$1" + ("," + ("$2" + ("," + ("$3" + (")" + ""))))))))))))))
    ensures Renumber(SqlText(Statement(table, columns, action)), 1) ==
            "INSERT INTO " + (table + (" (" + (columns[0] + ("," + (columns[1] + ("," + (columns[2] + (") VALUES (" +
            ("$1" + ("," + ("$2" + ("," + ("$3" + (")" + (" ON CONFLICT(" + (constraint + (") DO NOTHING" + "")))))))))))))))))
  {
    CleanStatement(table, columns, ConflictClause(NoAction));
    StatementNumbers(table, columns, NoAction);
    RenumberIsNumbered(Statement(table, columns, NoAction), 1);
    TextOfStatement(table, columns, NumberedConflict(NoAction, 4));

    var rest := Piece(Word(") DO NOTHING"), End);
    assert NameList([constraint], 0, rest) == Piece(Name(constraint), rest);
    CleanList([constraint], 0, rest);
    CleanStatement(table, columns, ConflictClause(action));
    StatementNumbers(table, columns, action);
    RenumberIsNumbered(Statement(table, columns, action), 1);
    TextOfPair(Name(constraint), ") DO NOTHING", End);
    assert NumberedConflict(action, 4) == Piece(Word(" ON CONFLICT("), Piece(Name(constraint), rest));
    TextOfStatement(table, columns, NumberedConflict(action, 4));
  }

  /** The documented statement: sorted columns, and numbers running on into the conflict clause. */
  lemma DocumentedStatement<V>(id: V, amount: V, status: V)
    ensures ArgumentsOf(Bets(id, amount, status)) == [amount, id, status, status]
    ensures Renumber(SqlText(TokensOf(Bets(id, amount, status))), 1) ==
            "INSERT INTO " + ("bets" + (" (" + ("amount" + ("," + ("id" + ("," + ("status" + (") VALUES (" +
            ("$1" + ("," + ("$2" + ("," + ("$3" + (")" + (" ON CONFLICT(" + ("id" + (") DO UPDATE   SET " +
            ("status" + (" = " + ("$4" + ""))))))))))))))))))))
  {
    ColumnsOfBets(id, amount, status);
    ArgumentsOfBets(id, amount, status);
    NamesOfBets();
    UpsertText("bets", ["amount", "id", "status"], "id", "status", Update(["id"], ["status"]));
  }
}
