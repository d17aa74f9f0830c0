/**
 * `NameValidator.check_valid`: a schema name must be a non-empty string free of
 * the characters Windows forbids in file names. Both packages ship the same
 * predicate. The `ValueError` it raises is the `Failure` branch here.
 */
module NameValidator {
  import opened Wrappers

  const InvalidChars := "<>:\"/\\|?*"
  const EmptyError := "Schema name must be a non-empty string"
  const InvalidError := "Schema name contains invalid characters: " + InvalidChars

  /** No character of `name` is one of the forbidden ones. */
  predicate CleanChars(name: string) {
    forall i :: 0 <= i < |name| ==> name[i] !in InvalidChars
  }

  /** `check_valid`: the empty name is refused first, then a forbidden character. */
  function CheckValid(name: string): (r: Result<(), string>)
    ensures r.Success? <==> name != "" && CleanChars(name)
    ensures name == "" ==> r == Failure(EmptyError)
    ensures name != "" && !CleanChars(name) ==> r == Failure(InvalidError)
  {
    if name == "" then Failure(EmptyError)
    else if exists i :: 0 <= i < |name| && name[i] in InvalidChars then Failure(InvalidError)
    else Success(())
  }

  /** Dots are allowed, so the names of a list of valid parts joined with `.` stay valid. */
  lemma DottedJoinValid(a: string, b: string)
    requires CheckValid(a).Success? && CheckValid(b).Success?
    ensures CheckValid(a + "." + b).Success?
  {
    var s := a + "." + b;
    forall i | 0 <= i < |s| ensures s[i] !in InvalidChars {
      if i < |a| {
        assert s[i] == a[i];
      } else if i > |a| {
        assert s[i] == b[i - |a| - 1];
      }
    }
  }

  /** The verdict depends only on which characters occur: reordering or repeating them changes nothing. */
  lemma SameCharsSameVerdict(a: string, b: string)
    requires forall c :: c in a <==> c in b
    ensures CheckValid(a) == CheckValid(b)
  {
    assert a != "" ==> a[0] in b;
    assert b != "" ==> b[0] in a;
    if !CleanChars(a) {
      var i :| 0 <= i < |a| && a[i] in InvalidChars;
      assert a[i] in b;
    }
    if !CleanChars(b) {
      var i :| 0 <= i < |b| && b[i] in InvalidChars;
      assert b[i] in a;
    }
  }

  /** Each forbidden character alone makes a name invalid, wherever it stands. */
  lemma ForbiddenCharRejected(prefix: string, c: char, suffix: string)
    requires c in InvalidChars
    ensures CheckValid(prefix + [c] + suffix) == Failure(InvalidError)
  {
    assert (prefix + [c] + suffix)[|prefix|] == c;
  }
}
