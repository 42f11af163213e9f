/**
 * `Environment for String` of src/errors/string_environment.rs: an error
 * environment is a path, and `extend_path` appends one step to it behind a
 * newline, a tab and an arrow.
 */
module StringEnvironment {

  /** What `extend_path` writes before every new step: five characters. */
  const Separator: string := "\n\t-> "

  /** The path after `extend_path(sub)`. */
  function Extended(environment: string, sub: string): (r: string)
    ensures |r| == |environment| + |Separator| + |sub| && |Separator| == 5
    ensures r[..|environment|] == environment
    ensures r[|environment|..|environment| + |Separator|] == Separator && r[|environment| + |Separator|..] == sub
  {
    environment + Separator + sub
  }

  /**
   * `extend_path`: the two `push_str` calls on the environment string. The
   * handlers' `clone_for` functions use `Extended`, which this method is proved
   * equal to; only `ExtendTwice` below refers to the method's specification.
   */
  method ExtendPath(environment: string, sub: string) returns (extended: string)
    ensures extended == Extended(environment, sub)
  {
    extended := environment;
    extended := extended + Separator;
    extended := extended + sub;
  }

  /** The steps a chain of `extend_path(subs[0])`, `extend_path(subs[1])`, ... appends, in order. */
  function Steps(subs: seq<string>): string
    decreases |subs|
  {
    if subs == [] then "" else Separator + subs[0] + Steps(subs[1..])
  }

  /** The path after extending `environment` by each of `subs` in turn. */
  function ExtendedBy(environment: string, subs: seq<string>): string
    decreases |subs|
  {
    if subs == [] then environment else ExtendedBy(Extended(environment, subs[0]), subs[1..])
  }

  /** A chain of extensions appends every step, each behind its separator, even an empty one; the old path is kept in front. */
  lemma {:induction false} ExtendedByAppendsSteps(environment: string, subs: seq<string>)
    ensures ExtendedBy(environment, subs) == environment + Steps(subs)
    decreases |subs|
  {
    if subs != [] {
      ExtendedByAppendsSteps(Extended(environment, subs[0]), subs[1..]);
      assert Extended(environment, subs[0]) + Steps(subs[1..]) == environment + (Separator + subs[0] + Steps(subs[1..]));
    }
  }

  /** Extending by `a` and then by `b` gives the old path, a separator, `a`, a separator and `b`. */
  lemma ExtendTwice(environment: string, a: string, b: string)
    ensures Extended(Extended(environment, a), b) == environment + Separator + a + Separator + b
    ensures Extended(environment, "") == environment + Separator
  {
  }

  /** Extending never forgets any of the path it had: every earlier path is a prefix of the later ones. */
  lemma ExtendedByKeepsPrefix(environment: string, subs: seq<string>, more: seq<string>)
    ensures ExtendedBy(environment, subs + more) == ExtendedBy(environment, subs) + Steps(more)
  {
    StepsConcat(subs, more);
    ExtendedByAppendsSteps(environment, subs + more);
    ExtendedByAppendsSteps(environment, subs);
    var front, back := Steps(subs), Steps(more);
    assert environment + (front + back) == (environment + front) + back;
  }

  lemma {:induction false} StepsConcat(subs: seq<string>, more: seq<string>)
    ensures Steps(subs + more) == Steps(subs) + Steps(more)
    decreases |subs|
  {
    if subs != [] {
      assert (subs + more)[0] == subs[0] && (subs + more)[1..] == subs[1..] + more;
      StepsConcat(subs[1..], more);
    } else {
      assert subs + more == more;
    }
  }
}
