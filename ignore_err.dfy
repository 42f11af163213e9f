/** `IgnoreErr` of src/errors/ignore_err.rs: a handler that keeps an environment and drops every error. */
module IgnoreErrors {
  import opened StringEnvironment

  datatype IgnoreErr = IgnoreErr(environment: string)

  /** `IgnoreErr::new`: the handler keeps the environment it is given. */
  function New(environment: string): (h: IgnoreErr)
    ensures Environment(h) == environment
  {
    IgnoreErr(environment)
  }

  /** `TracksEnvironment::environment`. */
  function Environment(h: IgnoreErr): string
  {
    h.environment
  }

  /** `clone_for`: a new handler on the extended path; the original is a value and keeps its own. */
  function CloneFor(h: IgnoreErr, sub: string): (c: IgnoreErr)
    ensures Environment(c) == Extended(Environment(h), sub)
    ensures Environment(c)[..|Environment(h)|] == Environment(h)
  {
    IgnoreErr(Extended(h.environment, sub))
  }

  /** Cloning for each of `subs` in turn extends the environment by all of them. */
  lemma {:induction false} CloneChain(h: IgnoreErr, subs: seq<string>)
    ensures Environment(CloneForAll(h, subs)) == Environment(h) + Steps(subs)
    decreases |subs|
  {
    if subs != [] {
      CloneChain(CloneFor(h, subs[0]), subs[1..]);
      assert Extended(h.environment, subs[0]) + Steps(subs[1..]) == h.environment + (Separator + subs[0] + Steps(subs[1..]));
    }
  }

  /** `h.clone_for(subs[0]).clone_for(subs[1])...`. */
  function CloneForAll(h: IgnoreErr, subs: seq<string>): IgnoreErr
    decreases |subs|
  {
    if subs == [] then h else CloneForAll(CloneFor(h, subs[0]), subs[1..])
  }
}
