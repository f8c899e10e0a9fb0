/**
 * The register logic of AMD64HotSpotBackendFactory: the set of registers a native call may
 * clobber (the caller-save registers of the platform's C calling convention), the special
 * registers of HotSpot on AMD64, and which compiler configurations the factory serves.
 */
module AMD64HotSpotBackendFactory {

  /** The AMD64 registers: the sixteen general-purpose ones and the XMM registers by index. */
  datatype Register =
    | Rax | Rcx | Rdx | Rbx | Rsp | Rbp | Rsi | Rdi
    | R8 | R9 | R10 | R11 | R12 | R13 | R14 | R15
    | Xmm(index: nat)

  /** Register.asValue: the register as an operand. */
  datatype RegisterValue = RegisterValue(reg: Register)

  predicate NoDuplicates(s: seq<Register>)
  {
    forall i, j :: 0 <= i < j < |s| ==> s[i] != s[j]
  }

  /**
   * The registers a callee must preserve under the Microsoft x64 calling convention, in the
   * order the factory removes them: rdi, rsi, rbx, rbp, rsp, r12 to r15 and xmm6 to xmm15.
   */
  const WindowsCalleeSaved: seq<Register> :=
    [Rdi, Rsi, Rbx, Rbp, Rsp, R12, R13, R14, R15,
     Xmm(6), Xmm(7), Xmm(8), Xmm(9), Xmm(10), Xmm(11), Xmm(12), Xmm(13), Xmm(14), Xmm(15)]

  /**
   * The registers that belong to the calling function under section 3.2.1 of the System V
   * Application Binary Interface, AMD64 Architecture Processor Supplement, Draft Version
   * 0.96: rbp, rbx and r12 to r15.
   */
  const SystemVCalleeSaved: seq<Register> := [Rbp, Rbx, R12, R13, R14, R15]

  function CalleeSaved(windowsOs: bool): seq<Register>
  {
    if windowsOs then WindowsCalleeSaved else SystemVCalleeSaved
  }

  /** ArrayList.remove(Object): the first occurrence of `x`, if any, leaves the list. */
  function RemoveFirst(s: seq<Register>, x: Register): (r: seq<Register>)
    ensures |r| == if x in s then |s| - 1 else |s|
  {
    if s == [] then []
    else if s[0] == x then s[1..]
    else [s[0]] + RemoveFirst(s[1..], x)
  }

  /** The list after removing each register of `xs` in turn. */
  function RemoveEach(s: seq<Register>, xs: seq<Register>): seq<Register>
  {
    if xs == [] then s else RemoveFirst(RemoveEach(s, xs[..|xs| - 1]), xs[|xs| - 1])
  }

  /** The registers of `s` that are not in `xs`, in order: the reference definition. */
  function Without(s: seq<Register>, xs: seq<Register>): (r: seq<Register>)
    ensures forall y :: y in r <==> y in s && y !in xs
  {
    if s == [] then []
    else (if s[0] in xs then [] else [s[0]]) + Without(s[1..], xs)
  }

  /** `a` is `b` with some elements left out, the others kept in order. */
  predicate Subsequence(a: seq<Register>, b: seq<Register>)
  {
    if a == [] then true
    else if b == [] then false
    else if a[0] == b[0] then Subsequence(a[1..], b[1..])
    else Subsequence(a, b[1..])
  }

  /** The caller-save list the factory builds from the allocatable registers. */
  function CallerSave(windowsOs: bool, allocatable: seq<Register>): seq<Register>
  {
    RemoveEach(allocatable, CalleeSaved(windowsOs))
  }

  /**
   * createNativeABICallerSaveRegisters: copies the allocatable registers into a list, removes
   * the callee-saved registers of the platform's convention one by one, and fills an array of
   * the same size with the remaining registers as values.
   */
  method CreateNativeABICallerSaveRegisters(windowsOs: bool, allocatable: seq<Register>)
    returns (nativeABICallerSaveRegisters: array<RegisterValue>)
    ensures fresh(nativeABICallerSaveRegisters)
    ensures nativeABICallerSaveRegisters.Length == |CallerSave(windowsOs, allocatable)|
    ensures forall i :: 0 <= i < nativeABICallerSaveRegisters.Length ==>
      nativeABICallerSaveRegisters[i] == RegisterValue(CallerSave(windowsOs, allocatable)[i])
  {
    var callerSave := allocatable;
    var removals := CalleeSaved(windowsOs);
    for k := 0 to |removals|
      invariant callerSave == RemoveEach(allocatable, removals[..k])
    {
      assert removals[..k + 1][..k] == removals[..k];
      callerSave := RemoveFirst(callerSave, removals[k]);
    }
    assert removals[..|removals|] == removals;
    nativeABICallerSaveRegisters := new RegisterValue[|callerSave|];
    for i := 0 to |callerSave|
      invariant forall j :: 0 <= j < i ==> nativeABICallerSaveRegisters[j] == RegisterValue(callerSave[j])
    {
      nativeABICallerSaveRegisters[i] := RegisterValue(callerSave[i]);
    }
  }

  // ---------------------------------------------------------------------------------------
  // What the removals leave

  /** The tail of a list without duplicates has none and does not hold the head. */
  lemma NoDuplicatesTail(s: seq<Register>)
    requires NoDuplicates(s) && s != []
    ensures NoDuplicates(s[1..]) && s[0] !in s[1..]
  {
    forall i, j | 0 <= i < j < |s[1..]|
      ensures s[1..][i] != s[1..][j]
    {
      assert s[1..][i] == s[i + 1] && s[1..][j] == s[j + 1];
    }
    forall i | 0 <= i < |s[1..]|
      ensures s[1..][i] != s[0]
    {
      assert s[1..][i] == s[i + 1];
    }
  }

  /** A value put in front of a list without duplicates that lacks it leaves none. */
  lemma NoDuplicatesCons(y: Register, t: seq<Register>)
    requires NoDuplicates(t) && y !in t
    ensures NoDuplicates([y] + t)
  {
    var r := [y] + t;
    forall i, j | 0 <= i < j < |r|
      ensures r[i] != r[j]
    {
      assert r[j] == t[j - 1];
      if i > 0 {
        assert r[i] == t[i - 1];
      }
    }
  }

  /** Removing the first occurrence of `x` from a list without duplicates removes every `x`. */
  lemma {:induction false} RemoveFirstIsWithout(s: seq<Register>, x: Register)
    requires NoDuplicates(s)
    ensures RemoveFirst(s, x) == Without(s, [x])
    ensures NoDuplicates(RemoveFirst(s, x))
  {
    if s != [] {
      NoDuplicatesTail(s);
      RemoveFirstIsWithout(s[1..], x);
      if s[0] == x {
        WithoutAbsent(s[1..], [x]);
      } else {
        assert s[0] !in RemoveFirst(s[1..], x);
        NoDuplicatesCons(s[0], RemoveFirst(s[1..], x));
      }
    }
  }

  /** Filtering out values that do not occur changes nothing. */
  lemma {:induction false} WithoutAbsent(s: seq<Register>, xs: seq<Register>)
    requires forall x :: x in xs ==> x !in s
    ensures Without(s, xs) == s
  {
    if s != [] {
      assert s[0] in s;
      WithoutAbsent(s[1..], xs);
      assert s == [s[0]] + s[1..];
    }
  }

  /** Filtering by `xs` and then by `[y]` is filtering by `xs + [y]`. */
  lemma {:induction false} WithoutThenWithout(s: seq<Register>, xs: seq<Register>, y: Register)
    ensures Without(Without(s, xs), [y]) == Without(s, xs + [y])
  {
    if s != [] {
      WithoutThenWithout(s[1..], xs, y);
      assert s[0] in xs + [y] <==> s[0] in xs || s[0] == y;
      if s[0] !in xs {
        var w := Without(s, xs);
        assert w == [s[0]] + Without(s[1..], xs);
        assert w[0] == s[0] && w[1..] == Without(s[1..], xs);
        assert s[0] in [y] <==> s[0] == y;
      } else {
        assert Without(s, xs) == Without(s[1..], xs);
      }
    }
  }

  /**
   * For a list without duplicates, as a register file is, removing each register of `xs` in
   * turn is filtering `xs` out.
   */
  lemma {:induction false} RemoveEachIsWithout(s: seq<Register>, xs: seq<Register>)
    requires NoDuplicates(s)
    ensures RemoveEach(s, xs) == Without(s, xs)
    ensures NoDuplicates(RemoveEach(s, xs))
  {
    if xs == [] {
      WithoutAbsent(s, xs);
    } else {
      var front := xs[..|xs| - 1];
      var last := xs[|xs| - 1];
      RemoveEachIsWithout(s, front);
      RemoveFirstIsWithout(RemoveEach(s, front), last);
      WithoutThenWithout(s, front, last);
      assert front + [last] == xs;
    }
  }

  /** Every element of a filtered list is kept in its original order. */
  lemma {:induction false} WithoutIsSubsequence(s: seq<Register>, xs: seq<Register>)
    ensures Subsequence(Without(s, xs), s)
  {
    if s != [] {
      WithoutIsSubsequence(s[1..], xs);
      if s[0] !in xs {
        var w := Without(s, xs);
        assert w == [s[0]] + Without(s[1..], xs);
        assert w[0] == s[0] && w[1..] == Without(s[1..], xs);
        assert Subsequence(w[1..], s[1..]);
        assert w != [] && s != [] && w[0] == s[0];
        assert Subsequence(w, s);
      } else {
        assert Without(s, xs) == Without(s[1..], xs);
        SubsequenceSkipFront(Without(s[1..], xs), s);
      }
    }
  }

  /** A subsequence of the tail of `b` is a subsequence of `b`. */
  lemma {:induction false} SubsequenceSkipFront(a: seq<Register>, b: seq<Register>)
    requires b != [] && Subsequence(a, b[1..])
    ensures Subsequence(a, b)
    decreases |b|, 0
  {
    if a != [] && a[0] == b[0] {
      SubsequenceDropHead(a, b[1..]);
    }
  }

  /** Leaving out the first element of a subsequence gives a subsequence. */
  lemma {:induction false} SubsequenceDropHead(a: seq<Register>, c: seq<Register>)
    requires a != [] && Subsequence(a, c)
    ensures Subsequence(a[1..], c)
    decreases |c|, 1
  {
    if a[0] == c[0] {
      SubsequenceSkipFront(a[1..], c);
    } else {
      SubsequenceDropHead(a, c[1..]);
      SubsequenceSkipFront(a[1..], c);
    }
  }

  /** Removing registers never drops a register outside the removal list. */
  lemma {:induction false} RemoveEachKeeps(s: seq<Register>, xs: seq<Register>, y: Register)
    requires y in s && y !in xs
    ensures y in RemoveEach(s, xs)
  {
    if xs != [] {
      var front := xs[..|xs| - 1];
      RemoveEachKeeps(s, front, y);
      RemoveFirstKeeps(RemoveEach(s, front), xs[|xs| - 1], y);
    }
  }

  lemma {:induction false} RemoveFirstKeeps(s: seq<Register>, x: Register, y: Register)
    requires y in s && y != x
    ensures y in RemoveFirst(s, x)
  {
    if s[0] != x && s[0] != y {
      RemoveFirstKeeps(s[1..], x, y);
    } else if s[0] == x {
      assert y in s[1..];
    }
  }

  /** Removing registers never adds one. */
  lemma {:induction false} RemoveEachOnlyRemoves(s: seq<Register>, xs: seq<Register>, y: Register)
    requires y in RemoveEach(s, xs)
    ensures y in s
  {
    if xs != [] {
      var front := xs[..|xs| - 1];
      RemoveFirstOnlyRemoves(RemoveEach(s, front), xs[|xs| - 1], y);
      RemoveEachOnlyRemoves(s, front, y);
    }
  }

  lemma {:induction false} RemoveFirstOnlyRemoves(s: seq<Register>, x: Register, y: Register)
    requires y in RemoveFirst(s, x)
    ensures y in s
  {
    if s != [] && s[0] != x && y != s[0] {
      RemoveFirstOnlyRemoves(s[1..], x, y);
    }
  }

  // ---------------------------------------------------------------------------------------
  // The caller-save set of each convention

  /**
   * For an allocatable set without duplicates, the caller-save list holds exactly the
   * allocatable registers that the convention does not make callee-saved, in their original
   * order.
   */
  lemma CallerSaveIsFiltered(windowsOs: bool, allocatable: seq<Register>)
    requires NoDuplicates(allocatable)
    ensures CallerSave(windowsOs, allocatable) == Without(allocatable, CalleeSaved(windowsOs))
    ensures forall r :: r in CallerSave(windowsOs, allocatable) <==> r in allocatable && r !in CalleeSaved(windowsOs)
    ensures Subsequence(CallerSave(windowsOs, allocatable), allocatable)
    ensures NoDuplicates(CallerSave(windowsOs, allocatable))
  {
    RemoveEachIsWithout(allocatable, CalleeSaved(windowsOs));
    WithoutIsSubsequence(allocatable, CalleeSaved(windowsOs));
  }

  /** On Windows no callee-saved register of the Microsoft x64 convention is caller-save. */
  lemma WindowsCallerSave(allocatable: seq<Register>)
    requires NoDuplicates(allocatable)
    ensures forall r :: r in [Rdi, Rsi, Rbx, Rbp, Rsp, R12, R13, R14, R15] ==> r !in CallerSave(true, allocatable)
    ensures forall n :: 6 <= n <= 15 ==> Xmm(n) !in CallerSave(true, allocatable)
  {
    CallerSaveIsFiltered(true, allocatable);
    forall n | 6 <= n <= 15
      ensures Xmm(n) in WindowsCalleeSaved
    {
      assert WindowsCalleeSaved[n + 3] == Xmm(n);
    }
  }

  /**
   * Elsewhere rbp, rbx and r12 to r15 are not caller-save, while every other allocatable
   * register, rdi, rsi, rsp and xmm6 to xmm15 included, is.
   */
  lemma SystemVCallerSave(allocatable: seq<Register>)
    requires NoDuplicates(allocatable)
    ensures forall r :: r in [Rbp, Rbx, R12, R13, R14, R15] ==> r !in CallerSave(false, allocatable)
    ensures forall r :: r in allocatable && r !in [Rbp, Rbx, R12, R13, R14, R15] ==> r in CallerSave(false, allocatable)
    ensures forall r :: r in CallerSave(false, allocatable) ==> r in allocatable
  {
    CallerSaveIsFiltered(false, allocatable);
  }

  /**
   * Whatever the allocatable list, even one with repetitions, the caller-save list only drops
   * registers of the convention's list and holds nothing that was not allocatable.
   */
  lemma CallerSaveKeepsOthers(windowsOs: bool, allocatable: seq<Register>, r: Register)
    ensures r in allocatable && r !in CalleeSaved(windowsOs) ==> r in CallerSave(windowsOs, allocatable)
    ensures r in CallerSave(windowsOs, allocatable) ==> r in allocatable
  {
    if r in allocatable && r !in CalleeSaved(windowsOs) {
      RemoveEachKeeps(allocatable, CalleeSaved(windowsOs), r);
    }
    if r in CallerSave(windowsOs, allocatable) {
      RemoveEachOnlyRemoves(allocatable, CalleeSaved(windowsOs), r);
    }
  }

  // ---------------------------------------------------------------------------------------
  // createRegisters and isAssociatedWith

  /** HotSpotRegisters: the thread register, the heap base register and the stack pointer. */
  datatype HotSpotRegisters = HotSpotRegisters(threadRegister: Register, heapBaseRegister: Register, stackPointerRegister: Register)

  /** createRegisters: r15 holds the thread, r12 the heap base, rsp the stack pointer. */
  function CreateRegisters(): (r: HotSpotRegisters)
    ensures r.threadRegister == R15 && r.heapBaseRegister == R12 && r.stackPointerRegister == Rsp
  {
    HotSpotRegisters(R15, R12, Rsp)
  }

  /**
   * The thread and heap base registers survive a native call under both conventions: neither
   * is ever caller-save.
   */
  lemma SpecialRegistersAreCalleeSaved(windowsOs: bool, allocatable: seq<Register>)
    requires NoDuplicates(allocatable)
    ensures CreateRegisters().threadRegister !in CallerSave(windowsOs, allocatable)
    ensures CreateRegisters().heapBaseRegister !in CallerSave(windowsOs, allocatable)
  {
    CallerSaveIsFiltered(windowsOs, allocatable);
    assert R15 in CalleeSaved(windowsOs) && R12 in CalleeSaved(windowsOs);
  }

  /**
   * A compiler configuration factory, by class: the core and economy factories, any subclass
   * of a factory class, and any other factory class.
   */
  datatype ConfigurationFactory =
    | CoreConfiguration
    | EconomyConfiguration
    | OtherConfiguration(name: string)
    | Subclass(name: string, parent: ConfigurationFactory)

  /** Java's instanceof on factory classes: `f` is `c` or a subclass of it. */
  predicate InstanceOf(f: ConfigurationFactory, c: ConfigurationFactory)
  {
    f == c || (f.Subclass? && InstanceOf(f.parent, c))
  }

  /** The class at the top of the chain of superclasses of `f`. */
  function Root(f: ConfigurationFactory): (r: ConfigurationFactory)
    ensures !r.Subclass?
  {
    if f.Subclass? then Root(f.parent) else f
  }

  /**
   * isAssociatedWith: the factory is an instance of the core or the economy configuration
   * factory, which holds exactly for the factories descending from one of the two.
   */
  function IsAssociatedWith(f: ConfigurationFactory): (r: bool)
    ensures r <==> Root(f) == CoreConfiguration || Root(f) == EconomyConfiguration
  {
    InstanceOfRoot(f, CoreConfiguration);
    InstanceOfRoot(f, EconomyConfiguration);
    InstanceOf(f, CoreConfiguration) || InstanceOf(f, EconomyConfiguration)
  }

  /** instanceof a class with no superclass of its own holds exactly for the classes it roots. */
  lemma {:induction false} InstanceOfRoot(f: ConfigurationFactory, c: ConfigurationFactory)
    requires !c.Subclass?
    ensures InstanceOf(f, c) <==> Root(f) == c
  {
    if f.Subclass? {
      InstanceOfRoot(f.parent, c);
    }
  }
}
