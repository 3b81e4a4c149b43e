/** _exception_class_names: the exception classes of a package, by the names they are defined and derived under. */
module ExceptionGate {
  import opened Text

  datatype ClassDef = ClassDef(path: string, line: nat, name: string, bases: seq<string>)

  predicate Suffixed(name: string) {
    EndsWith(name, "Error") || EndsWith(name, "Exception")
  }

  /** Some base looks like an exception, or is known to be one. */
  predicate Derives(c: ClassDef, known: set<string>) {
    exists b <- c.bases :: Suffixed(b) || b in known
  }

  /**
    A chain of definitions from a suffixed base to this name: each step is a class with the previous name among its
    bases.
   */
  ghost predicate Chain(classes: seq<ClassDef>, chain: seq<ClassDef>) {
    && chain != [] && (forall c <- chain :: c in classes)
    && (exists b <- chain[0].bases :: Suffixed(b))
    && forall i | 0 <= i < |chain| - 1 :: chain[i].name in chain[i + 1].bases
  }

  /** A class is an exception type, transitively. */
  ghost predicate IsException(classes: seq<ClassDef>, name: string) {
    exists chain: seq<ClassDef> :: Chain(classes, chain) && chain[|chain| - 1].name == name
  }

  /** Closed under the rule: whatever derives from a suffixed or known name is known. */
  ghost predicate Closed(classes: seq<ClassDef>, known: set<string>) {
    forall c <- classes :: Derives(c, known) ==> c.name in known
  }

  lemma DerivedIsException(classes: seq<ClassDef>, known: set<string>, c: ClassDef)
    requires c in classes && Derives(c, known) && forall n <- known :: IsException(classes, n)
    ensures IsException(classes, c.name)
  {
    var b :| b in c.bases && (Suffixed(b) || b in known);
    if Suffixed(b) {
      assert Chain(classes, [c]) && [c][|[c]| - 1].name == c.name;
    } else {
      var chain: seq<ClassDef> :| Chain(classes, chain) && chain[|chain| - 1].name == b;
      var longer := chain + [c];
      assert Chain(classes, longer) && longer[|longer| - 1].name == c.name;
    }
  }

  /** Every closed set holds every exception type, so a closed set of exception types is the least one. */
  lemma {:induction false} ChainInClosed(classes: seq<ClassDef>, known: set<string>, chain: seq<ClassDef>)
    requires Closed(classes, known) && Chain(classes, chain)
    ensures chain[|chain| - 1].name in known
    decreases |chain|
  {
    var n := |chain| - 1;
    if n == 0 {
      assert Derives(chain[0], known);
    } else {
      assert Chain(classes, chain[..n]);
      ChainInClosed(classes, known, chain[..n]);
      assert chain[n - 1].name in chain[n].bases && Derives(chain[n], known);
    }
  }

  function Names(classes: seq<ClassDef>): set<string> { set c | c in classes :: c.name }

  /** One sweep over the classes. */
  method Sweep(classes: seq<ClassDef>, known0: set<string>) returns (known: set<string>, changed: bool)
    requires known0 <= Names(classes) && forall n <- known0 :: IsException(classes, n)
    ensures known0 <= known <= Names(classes) && forall n <- known :: IsException(classes, n)
    ensures changed <==> known != known0
    ensures !changed ==> Closed(classes, known)
  {
    known, changed := known0, false;
    for i := 0 to |classes|
      invariant known0 <= known <= Names(classes) && forall n <- known :: IsException(classes, n)
      invariant changed <==> known != known0
      invariant !changed ==> forall j | 0 <= j < i :: Derives(classes[j], known) ==> classes[j].name in known
    {
      var c := classes[i];
      if c.name !in known && Derives(c, known) {
        DerivedIsException(classes, known, c);
        known := known + {c.name};
        changed := true;
      }
    }
  }

  /** The names found are exactly the exception types; they are closed under the rule and in every closed set. */
  method ExceptionClassNames(classes: seq<ClassDef>) returns (known: set<string>)
    ensures forall n: string :: n in known <==> IsException(classes, n)
    ensures Closed(classes, known)
    ensures forall other: set<string> | Closed(classes, other) :: known <= other
  {
    known := {};
    var changed := true;
    while changed
      invariant known <= Names(classes) && forall n <- known :: IsException(classes, n)
      invariant !changed ==> Closed(classes, known)
      decreases Names(classes) - known, changed
    {
      known, changed := Sweep(classes, known);
    }
    forall n: string, other: set<string> | Closed(classes, other) && IsException(classes, n) ensures n in other {
      var chain: seq<ClassDef> :| Chain(classes, chain) && chain[|chain| - 1].name == n;
      ChainInClosed(classes, other, chain);
    }
    forall n: string | IsException(classes, n) ensures n in known {
      var chain: seq<ClassDef> :| Chain(classes, chain) && chain[|chain| - 1].name == n;
      ChainInClosed(classes, known, chain);
    }
  }

  const INTERFACE := {"redfish_ctl/cmd_exceptions.py", "redfish_ctl/redfish_exceptions.py"}

  /** _violations: the definitions of exception types outside the interface, and no others. */
  method Violations(classes: seq<ClassDef>) returns (bad: seq<(string, nat)>)
    ensures forall path: string, line :: (path, line) in bad <==>
      exists c <- classes :: c.path == path && c.line == line && path !in INTERFACE && IsException(classes, c.name)
  {
    var names := ExceptionClassNames(classes);
    bad := [];
    for i := 0 to |classes|
      invariant forall path: string, line :: (path, line) in bad <==>
        exists c <- classes[..i] ::
          c.path == path && c.line == line && path !in INTERFACE && IsException(classes, c.name)
    {
      assert classes[..i + 1] == classes[..i] + [classes[i]];
      if classes[i].path !in INTERFACE && classes[i].name in names {
        bad := bad + [(classes[i].path, classes[i].line)];
      }
    }
    assert classes[..|classes|] == classes;
  }
}
