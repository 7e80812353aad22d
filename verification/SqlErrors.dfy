/** `pgErrWrapper` (pkg/database/sql/errors.go): driver errors become sentinels. */
module SqlErrors {
  import opened GoErrors

  const ERR_CONN := Leaf(1, "error while connecting to database")
  const ERR_SYNTAX := Leaf(2, "syntax Error 42601")
  const ERR_UNIQUE_VIOLATION := Leaf(3, "unique violation 23505")
  const ERR_FOREIGN_KEY_VIOLATION := Leaf(4, "foreign key violation 23503")
  const ERR_NO_PARAMETER := Leaf(5, "no parameter 42P02")
  const ERR_GENERAL := Leaf(6, "something went wrong")

  function SentinelFor(code: string): Error {
    if code == "42601" then ERR_SYNTAX
    else if code == "23505" then ERR_UNIQUE_VIOLATION
    else if code == "23503" then ERR_FOREIGN_KEY_VIOLATION
    else if code == "42P02" then ERR_NO_PARAMETER
    else ERR_GENERAL
  }

  function Translate(err: Option<Error>): Option<Error> {
    match err
    case None => None
    case Some(e) =>
      match As(e, DRIVER_ERROR)
      case None => Some(WithStack(e))
      case Some(pg) =>
        var sentinel := SentinelFor(pg.code);
        Some(Wrap(sentinel, if sentinel == ERR_GENERAL then Text(e) else pg.message))
  }

  /** A caller's match target: an error that wraps nothing, as every sentinel is. */
  predicate Plain(target: Error) {
    target.Leaf? || target.Kafka? || target.Pg?
  }

  /** Which errors a translated error matches: the sentinel of the first driver error,
      or whatever the original matched when it holds no driver error. */
  lemma TranslateMatches(e: Error, target: Error)
    requires Plain(target)
    ensures Translate(Some(e)).Some?
    ensures Is(Translate(Some(e)).value, target) <==>
            match As(e, DRIVER_ERROR)
            case Some(pg) => target == SentinelFor(pg.code)
            case None => Is(e, target)
  {
    match As(e, DRIVER_ERROR)
    case None =>
    case Some(pg) =>
      var text := if SentinelFor(pg.code) == ERR_GENERAL then Text(e) else pg.message;
      assert Is(Translate(Some(e)).value, target) <==> Is(WithMessage(text, SentinelFor(pg.code)), target);
      assert Is(WithMessage(text, SentinelFor(pg.code)), target) <==> Is(SentinelFor(pg.code), target);
  }

  /** No `*pgconn.PgError` survives the translation, and nil stays nil. */
  lemma TranslateHidesDriverErrors(err: Option<Error>)
    ensures Translate(err).None? <==> err.None?
    ensures Translate(err).Some? ==> forall t: Error :: t.Pg? ==> !Is(Translate(err).value, t)
    ensures Translate(err).Some? ==> As(Translate(err).value, DRIVER_ERROR) == None
  {
    if err.Some? {
      var r := Translate(err).value;
      AsFindsWhatIsThere(err.value, DRIVER_ERROR);
      forall t: Error | t.Pg?
        ensures !Is(r, t)
      {
        assert DRIVER_ERROR(t);
        TranslateMatches(err.value, t);
      }
      AsFindsWhatIsThere(r, DRIVER_ERROR);
    }
  }

  /** `Get` and `Select` translate once more what a transaction already translated:
      the second pass changes neither the matches nor the text. */
  lemma TranslateTwice(err: Option<Error>, target: Error)
    requires Plain(target)
    ensures var once, twice := Translate(err), Translate(Translate(err));
            && (twice.None? <==> once.None?)
            && (once.Some? ==>
                  && (Is(twice.value, target) <==> Is(once.value, target))
                  && Text(twice.value) == Text(once.value)
                  && As(twice.value, DRIVER_ERROR) == None)
  {
    TranslateHidesDriverErrors(err);
    TranslateHidesDriverErrors(Translate(err));
    if err.Some? {
      TranslateMatches(Translate(err).value, target);
    }
  }

  predicate Mapped(code: string) {
    code in {"42601", "23505", "23503", "42P02"}
  }

  /** The text a caller reads: the driver's message in front of the sentinel's text, the
      whole original text for an unmapped code, the original text when nothing was mapped. */
  lemma TranslateKeepsMessage(e: Error)
    ensures Translate(Some(e)).Some?
    ensures Text(Translate(Some(e)).value) ==
            match As(e, DRIVER_ERROR)
            case None => Text(e)
            case Some(pg) =>
              (if Mapped(pg.code) then pg.message else Text(e))
              + ": " + Text(SentinelFor(pg.code))
  {
    match As(e, DRIVER_ERROR)
    case None =>
    case Some(pg) =>
      var text := if SentinelFor(pg.code) == ERR_GENERAL then Text(e) else pg.message;
      assert Text(Translate(Some(e)).value) == Text(WithMessage(text, SentinelFor(pg.code)));
  }

  lemma SentinelNames(code: string)
    ensures SentinelFor(code) == ERR_SYNTAX <==> code == "42601"
    ensures SentinelFor(code) == ERR_UNIQUE_VIOLATION <==> code == "23505"
    ensures SentinelFor(code) == ERR_FOREIGN_KEY_VIOLATION <==> code == "23503"
    ensures SentinelFor(code) == ERR_NO_PARAMETER <==> code == "42P02"
    ensures SentinelFor(code) == ERR_GENERAL <==> !Mapped(code)
    ensures SentinelFor(code) != ERR_CONN
  {
    assert "42601"[4] != "23505"[4] && "23505"[4] != "23503"[4] && "42601"[4] != "23503"[4];
    assert "42P02"[4] != "42601"[4] && "42P02"[4] != "23505"[4] && "42P02"[4] != "23503"[4];
  }

  lemma SentinelMatches(e: Error, pg: Error, target: Error)
    requires As(e, DRIVER_ERROR) == Some(pg) && Plain(target)
    ensures Translate(Some(e)).Some?
    ensures Is(Translate(Some(e)).value, target) <==> target == SentinelFor(pg.code)
  {
    TranslateMatches(e, target);
  }

  /** The documented codes, one by one: an error whose first driver error is `pg` matches the
      sentinel of its code, and no other. */
  lemma SentinelsByCode(e: Error, pg: Error)
    requires As(e, DRIVER_ERROR) == Some(pg)
    ensures Translate(Some(e)).Some?
    ensures Is(Translate(Some(e)).value, ERR_SYNTAX) <==> pg.code == "42601"
    ensures Is(Translate(Some(e)).value, ERR_UNIQUE_VIOLATION) <==> pg.code == "23505"
    ensures Is(Translate(Some(e)).value, ERR_FOREIGN_KEY_VIOLATION) <==> pg.code == "23503"
    ensures Is(Translate(Some(e)).value, ERR_NO_PARAMETER) <==> pg.code == "42P02"
    ensures Is(Translate(Some(e)).value, ERR_GENERAL) <==> !Mapped(pg.code)
    ensures !Is(Translate(Some(e)).value, ERR_CONN)
  {
    SentinelNames(pg.code);
    SentinelMatches(e, pg, ERR_SYNTAX);
    SentinelMatches(e, pg, ERR_UNIQUE_VIOLATION);
    SentinelMatches(e, pg, ERR_FOREIGN_KEY_VIOLATION);
    SentinelMatches(e, pg, ERR_NO_PARAMETER);
    SentinelMatches(e, pg, ERR_GENERAL);
    SentinelMatches(e, pg, ERR_CONN);
  }

  /** A sentinel's text names its code. */
  lemma SentinelTexts(code: string)
    ensures Text(SentinelFor(code)) ==
            if code == "42601" then "syntax Error 42601"
            else if code == "23505" then "unique violation 23505"
            else if code == "23503" then "foreign key violation 23503"
            else if code == "42P02" then "no parameter 42P02"
            else "something went wrong"
  {
    SentinelNames(code);
  }
}
