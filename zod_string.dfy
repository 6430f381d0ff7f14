/**
 * The string checks that the auth schemas chain onto `z.string()`, and how
 * zod runs a chain: every check is tried in turn, and a failing check records
 * an issue without stopping the others, so a field raises one issue for each
 * check its value fails.
 */
module ZodString {
  import opened JsString
  import opened PasswordPattern

  /** An issue as zod reports it: the field it is attached to and its message. */
  datatype Issue<P, M> = Issue(path: P, message: M)

  /** One check of a chain, with the message it reports when it fails. */
  datatype Check<M> =
    | MinLength(bound: nat, message: M)   // `.min(bound, message)`
    | MaxLength(bound: nat, message: M)   // `.max(bound, message)`
    | EmailFormat(message: M)             // `.email(message)`
    | StrongPasswordPattern(message: M)   // `.regex(/^(?=.*[a-z])(?=.*[A-Z])(?=.*\d)/, message)`

  /**
   * Whether `s` passes `check`. zod's own e-mail pattern is not part of this
   * model; `isEmail` stands for it.
   */
  predicate Passes<M>(isEmail: string -> bool, check: Check<M>, s: string) {
    match check
    case MinLength(n, _) => Length(s) >= n
    case MaxLength(n, _) => Length(s) <= n
    case EmailFormat(_) => isEmail(s)
    case StrongPasswordPattern(_) => StrongPassword(s)
  }

  /** The issue `check` raises on the field at `path` holding `s`: none when `s` passes. */
  function CheckIssue<P(==), M(==)>(isEmail: string -> bool, path: P, check: Check<M>, s: string): set<Issue<P, M>> {
    if Passes(isEmail, check, s) then {} else {Issue(path, check.message)}
  }

  /** The issues the chain `checks` raises on the field at `path` holding `s`, in the order zod tries them. */
  function StringIssues<P(==), M(==)>(isEmail: string -> bool, path: P, checks: seq<Check<M>>, s: string): set<Issue<P, M>> {
    if checks == [] then {}
    else CheckIssue(isEmail, path, checks[0], s) + StringIssues(isEmail, path, checks[1..], s)
  }

  /**
   * A chain raises an issue on its own field for each of its checks that the
   * value fails, with that check's message, and nothing else.
   */
  lemma {:induction false} StringIssuesMeaning<P(!new), M(!new)>(isEmail: string -> bool, path: P, checks: seq<Check<M>>, s: string)
    ensures forall i :: i in StringIssues(isEmail, path, checks, s) <==>
      i.path == path && exists k :: 0 <= k < |checks| && checks[k].message == i.message && !Passes(isEmail, checks[k], s)
  {
    if checks != [] {
      StringIssuesMeaning(isEmail, path, checks[1..], s);
      assert forall k :: 1 <= k < |checks| ==> checks[1..][k - 1] == checks[k];
    }
  }

  /** A field raises no issue exactly when its value passes every check of the chain. */
  lemma NoIssuesIffAllPass<P(!new), M(!new)>(isEmail: string -> bool, path: P, checks: seq<Check<M>>, s: string)
    ensures StringIssues(isEmail, path, checks, s) == {} <==> forall k :: 0 <= k < |checks| ==> Passes(isEmail, checks[k], s)
  {
    StringIssuesMeaning(isEmail, path, checks, s);
    if !forall k :: 0 <= k < |checks| ==> Passes(isEmail, checks[k], s) {
      var k :| 0 <= k < |checks| && !Passes(isEmail, checks[k], s);
      assert Issue(path, checks[k].message) in StringIssues(isEmail, path, checks, s);
    }
  }

  /** A chain of no checks raises nothing. */
  lemma ChainOfNone<P(!new), M(!new)>(isEmail: string -> bool, path: P, s: string)
    ensures StringIssues<P, M>(isEmail, path, [], s) == {}
  {
  }

  /** A chain of one check raises that check's issue. */
  lemma ChainOfOne<P(!new), M(!new)>(isEmail: string -> bool, path: P, c: Check<M>, s: string)
    ensures StringIssues(isEmail, path, [c], s) == CheckIssue(isEmail, path, c, s)
  {
    assert [c][1..] == [];
  }

  /** A chain of two checks raises the issues of both. */
  lemma ChainOfTwo<P(!new), M(!new)>(isEmail: string -> bool, path: P, c: Check<M>, d: Check<M>, s: string)
    ensures StringIssues(isEmail, path, [c, d], s) == CheckIssue(isEmail, path, c, s) + CheckIssue(isEmail, path, d, s)
  {
    assert [c, d][1..] == [d];
    ChainOfOne(isEmail, path, d, s);
  }
}
