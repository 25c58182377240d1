/**
  The `depends_on` guard evaluator `eval_depends`. It searches the guard with
  the regular expression `(.*?)(==)(.*)`, looks the first group up as a path
  in the global configuration tree, builds a text from the value found and
  the SECOND group (the `==` token itself, not the literal after it), and
  hands that text to Python's `eval`. Every exception on the way yields False.
 */
module Depends {
  import opened Values
  import opened Paths

  /** A "==" starts at position j. */
  predicate EqAt(s: string, j: int)
  {
    0 <= j && j + 1 < |s| && s[j] == '=' && s[j + 1] == '='
  }

  /** No line break among the characters s[a..b]. */
  predicate NoNewline(s: string, a: nat, b: nat)
    requires a <= b <= |s|
  {
    forall k :: a <= k < b ==> s[k] != '\n'
  }

  /**
    `(.*?)(==)` can match from position i with its first group ending at j:
    `.` matches anything but a line break, so the first group stays on one line.
   */
  predicate Candidate(s: string, i: int, j: int)
  {
    0 <= i <= j && EqAt(s, j) && NoNewline(s, i, j)
  }

  /** The first "==" at or after position i. */
  function FindEq(s: string, i: nat): (r: Option<nat>)
    requires i <= |s|
    ensures r.Some? ==> i <= r.value && EqAt(s, r.value)
    ensures forall j :: i <= j && (r.None? || j < r.value) ==> !EqAt(s, j)
    decreases |s| - i
  {
    if i + 1 >= |s| then None
    else if s[i] == '=' && s[i + 1] == '=' then Some(i)
    else FindEq(s, i + 1)
  }

  /** The start of the line holding position j. */
  function LineStart(s: string, j: nat): (r: nat)
    requires j <= |s|
    ensures r <= j && NoNewline(s, r, j)
    ensures r == 0 || s[r - 1] == '\n'
  {
    if j == 0 || s[j - 1] == '\n' then j else LineStart(s, j - 1)
  }

  /** The end of the line holding position j. */
  function LineEnd(s: string, j: nat): (r: nat)
    requires j <= |s|
    ensures j <= r <= |s| && NoNewline(s, j, r)
    ensures r == |s| || s[r] == '\n'
    decreases |s| - j
  {
    if j == |s| || s[j] == '\n' then j else LineEnd(s, j + 1)
  }

  /** Positions of a match: the groups are s[start..op], s[op..op+2] and s[op+2..stop]. */
  datatype Match = Match(start: nat, op: nat, stop: nat)

  /**
    `re.search('(.*?)(==)(.*)', s)`: the leftmost start from which the pattern
    matches, the lazy first group as short as possible, the greedy third group
    running to the end of the line.
   */
  function Search(s: string): (r: Option<Match>)
    ensures r.None? <==> forall i, j :: !Candidate(s, i, j)
    ensures r.Some? ==> Candidate(s, r.value.start, r.value.op)
    ensures r.Some? ==> forall i, j :: 0 <= i < r.value.start ==> !Candidate(s, i, j)
    ensures r.Some? ==> forall j :: r.value.start <= j < r.value.op ==> !Candidate(s, r.value.start, j)
    ensures r.Some? ==> r.value.op + 2 <= r.value.stop <= |s| && NoNewline(s, r.value.op + 2, r.value.stop)
    ensures r.Some? ==> r.value.stop == |s| || s[r.value.stop] == '\n'
  {
    match FindEq(s, 0)
    case None => None
    case Some(j) =>
      var m := Match(LineStart(s, j), j, LineEnd(s, j + 2));
      assert Candidate(s, m.start, j);
      Some(m)
  }

  /** The first group of a match: the path text of the guard. */
  function GuardPath(s: string, m: Match): string
    requires m.start <= m.op <= |s|
  {
    s[m.start..m.op]
  }

  /** The second group of a match: the operator token. */
  function GuardOp(s: string, m: Match): string
    requires m.op + 2 <= |s|
  {
    s[m.op..m.op + 2]
  }

  /**
    The value `get_json_val(cfg_json, s[1])` finds, when it is a string: only a
    string survives `val + str(val)`; any other value raises TypeError.
   */
  function Operand(cfg: Json, dependsOn: string): Option<string>
  {
    match Search(dependsOn)
    case None => None
    case Some(m) =>
      var val := Lookup(cfg, Split(GuardPath(dependsOn, m)));
      if val.Some? && val.value.JStr? then Some(val.value.s) else None
  }

  /** The text handed to `eval` for a string operand v. */
  function EvalText(v: string): string
  {
    v + v + " == " + "=="
  }

  /**
    `eval_depends(depends_str)` over the configuration tree `cfg`. `pyEval` is
    Python's `eval`: None where evaluating the text raises.
   */
  function EvalDepends(cfg: Json, dependsOn: string, pyEval: string -> Option<Json>): (r: Json)
    ensures Operand(cfg, dependsOn).None? ==> r == JBool(false)
    ensures r == JBool(false) || (Operand(cfg, dependsOn).Some? && pyEval(EvalText(Operand(cfg, dependsOn).value)) == Some(r))
    ensures Operand(cfg, dependsOn).Some? && pyEval(EvalText(Operand(cfg, dependsOn).value)).Some?
            ==> r == pyEval(EvalText(Operand(cfg, dependsOn).value)).value
  {
    match Search(dependsOn)
    case None => JBool(false)
    case Some(m) =>
      var found := Lookup(cfg, Split(GuardPath(dependsOn, m)));
      if found.Some? && found.value.JStr? then
        var val := found.value.s;
        assert GuardOp(dependsOn, m) == "==";
        var outcome := pyEval(val + val + " == " + GuardOp(dependsOn, m));
        if outcome.Some? then outcome.value else JBool(false)
      else JBool(false)
  }

  /**
    Only the text before the first "==" reaches `eval`: whatever follows the
    operator, the literal included, the looked-up operand, and with it the
    text `eval` is handed, is the same.
   */
  lemma IgnoresTextAfterOperator(cfg: Json, p: string, x: string, y: string)
    ensures Search(p + "==" + x).Some? && Search(p + "==" + y).Some?
    ensures Operand(cfg, p + "==" + x) == Operand(cfg, p + "==" + y)
  {
    var s, t := p + "==" + x, p + "==" + y;
    var m := |p| + 2;
    assert s[..m] == p + "==" == t[..m];
    assert EqAt(s, |p|) && EqAt(t, |p|);
    var j := FindEq(s, 0).value;
    assert j <= |p|;
    FindEqPrefix(s, t, m, 0);
    assert s[..j] == s[..m][..j] == t[..m][..j] == t[..j];
    LineStartPrefix(s, t, j, j);
    var i := LineStart(s, j);
    assert s[i..j] == s[..j][i..] == t[..j][i..] == t[i..j];
  }

  /** The first "==" at or after i depends only on a prefix of the text that holds it. */
  lemma {:induction false} FindEqPrefix(s: string, t: string, m: nat, i: nat)
    requires i <= |s| && i <= |t| && m <= |s| && m <= |t| && s[..m] == t[..m]
    requires FindEq(s, i).Some? && FindEq(s, i).value + 2 <= m
    ensures FindEq(t, i) == FindEq(s, i)
    decreases |s| - i
  {
    assert s[i] == s[..m][i] == t[..m][i] == t[i];
    assert s[i + 1] == s[..m][i + 1] == t[..m][i + 1] == t[i + 1];
    if !(s[i] == '=' && s[i + 1] == '=') {
      FindEqPrefix(s, t, m, i + 1);
    }
  }

  /** The start of the line holding j depends only on the text before j. */
  lemma {:induction false} LineStartPrefix(s: string, t: string, m: nat, j: nat)
    requires j <= m <= |s| && m <= |t| && s[..m] == t[..m]
    ensures LineStart(s, j) == LineStart(t, j)
  {
    if j > 0 {
      assert s[j - 1] == s[..m][j - 1] == t[..m][j - 1] == t[j - 1];
      LineStartPrefix(s, t, m, j - 1);
    }
  }

  lemma PathBeforeFirstEq(p: string, x: string)
    requires forall k :: 0 <= k < |p| ==> p[k] != '=' && p[k] != '\n'
    ensures Search(p + "==" + x).Some?
    ensures GuardPath(p + "==" + x, Search(p + "==" + x).value) == p
  {
    var s := p + "==" + x;
    assert Candidate(s, 0, |p|);
    var m := Search(s).value;
    assert m.start == 0;
    assert m.op == |p|;
    assert s[0..|p|] == p;
  }

  /**
    A guard on one line whose path starts with `/` never holds: its first
    segment is "", which the configuration tree does not hold as a key.
   */
  lemma LeadingSlashNeverHolds(cfg: Json, dependsOn: string, pyEval: string -> Option<Json>)
    requires |dependsOn| > 0 && dependsOn[0] == '/' && '\n' !in dependsOn
    requires !Index(cfg, "").Some?
    ensures EvalDepends(cfg, dependsOn, pyEval) == JBool(false)
  {
    match Search(dependsOn)
    case None =>
    case Some(m) =>
      assert m.op > 0;
      var path := GuardPath(dependsOn, m);
      assert path[0] == '/';
      LeadingSlashLookup(cfg, path);
  }
}
