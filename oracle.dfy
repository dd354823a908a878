/** The failure oracle `module_fails` that `repro_minify` hands to the minifier: one attempt
    to compile, load and run a graph, turned into a yes/no answer, optionally narrowed to
    exceptions whose repr contains a given string. */
module Oracle {
  import opened Common
  import opened Strings

  /** What compile_fx_aot, aot_load and the single call of the loaded model do on one
      graph. A step after one that raises does not run, so its outcome is never looked at. */
  datatype Attempt = Attempt(compile: Outcome, load: Outcome, call: Outcome)

  /** The oracle either returns a boolean or lets an exception that is not an `Exception`
      pass through its `except Exception` clause. */
  datatype Verdict = Returned(fails: bool) | Escapes(exc: Exc)

  /** All three steps completed without raising. */
  predicate Clean(a: Attempt)
  {
    a.compile.Completed? && a.load.Completed? && a.call.Completed?
  }

  /** The exception that ends the attempt: the first step that raises. */
  function FirstRaised(a: Attempt): (r: Option<Exc>)
    ensures r.None? <==> Clean(a)
    ensures a.compile.Raised? ==> r == Some(a.compile.exc)
  {
    if a.compile.Raised? then Some(a.compile.exc)
    else if a.load.Raised? then Some(a.load.exc)
    else if a.call.Raised? then Some(a.call.exc)
    else None
  }

  /** module_fails(gm, inputs, check_str) */
  function ModuleFails(a: Attempt, checkStr: Option<string>): (v: Verdict)
    ensures Clean(a) ==> v == Returned(false)
    ensures checkStr.None? ==> (v == Returned(false) <==> Clean(a))
    ensures FirstRaised(a).Some? && FirstRaised(a).value.isException ==>
      v == Returned(checkStr.None? || Contains(FirstRaised(a).value.repr, checkStr.value))
    ensures v.Escapes? <==> FirstRaised(a).Some? && !FirstRaised(a).value.isException
  {
    match FirstRaised(a)
    case None => Returned(false)
    case Some(e) =>
      if !e.isException then Escapes(e)
      else if checkStr.Some? && !Contains(e.repr, checkStr.value) then Returned(false)
      else Returned(true)
  }

  /** Narrowing the filter can only turn failures into non-failures: an attempt that fails
      under `check_str` also fails under no filter and under any substring of `check_str`. */
  lemma NarrowerFilterFailsLess(a: Attempt, checkStr: string, shorter: string)
    requires ModuleFails(a, Some(checkStr)) == Returned(true)
    requires Contains(checkStr, shorter)
    ensures ModuleFails(a, None) == Returned(true)
    ensures ModuleFails(a, Some(shorter)) == Returned(true)
  {
    var e := FirstRaised(a).value;
    ContainsTransitive(e.repr, checkStr, shorter);
  }

  /** A compiler crash decides the verdict alone: what the loader and the call would have
      done is irrelevant, because they never run. */
  lemma CompileCrashDecides(e: Exc, load1: Outcome, call1: Outcome, load2: Outcome, call2: Outcome,
                            checkStr: Option<string>)
    ensures ModuleFails(Attempt(Raised(e), load1, call1), checkStr)
         == ModuleFails(Attempt(Raised(e), load2, call2), checkStr)
  {
  }

  /** A compiled artifact that raises RuntimeError("kernel launch failed"): the filter
      "kernel launch" keeps it as a failure, the filter "segfault" rejects it. */
  lemma KernelLaunchExample(compile: Outcome, load: Outcome)
    requires compile.Completed? && load.Completed?
    ensures var a := Attempt(compile, load, Raised(Exc(KernelLaunchRepr, true)));
      ModuleFails(a, Some("kernel launch")) == Returned(true) &&
      ModuleFails(a, Some("segfault")) == Returned(false) &&
      ModuleFails(a, None) == Returned(true)
  {
    KernelLaunchFound();
    assert 's' in "segfault" && 's' !in KernelLaunchRepr;
    MissingCharNotContained(KernelLaunchRepr, "segfault", 's');
  }

  const KernelLaunchRepr := "RuntimeError('kernel launch failed')"

  lemma KernelLaunchFound()
    ensures Contains(KernelLaunchRepr, "kernel launch")
  {
    var head := "RuntimeError('";
    assert KernelLaunchRepr == head + "kernel launch" + " failed')";
    assert KernelLaunchRepr[|head|..|head| + 13] == "kernel launch";
    assert OccursAt(KernelLaunchRepr, "kernel launch", |head|);
    ContainsIffOccurs(KernelLaunchRepr, "kernel launch");
  }
}
