/**
 * Selection of the pre-optimisation pass sequence that runs before Polly's
 * SCoP detection: a fixed list, or a list produced by one of the search
 * heuristics from a given candidate pool.
 */
module ScopDetection {

  /** The LLVM passes and optimiser options the sequences are made of; `Flag` gives each one's command-line flag. */
  datatype Pass =
    | Domtree
    | Mem2Reg
    | Instcombine
    | Simplifycfg
    | Tailcallelim
    | Reassociate
    | Loops
    | LoopSimplify
    | LCSSA
    | LoopRotate
    | ScalarEvolution
    | IVUsers
    | PollyIndvars
    | PollyPrepare
    | NoTTI
    | Targetlibinfo
    | ADCE
    | Argpromotion
    | BasicAA
    | Constmerge
    | CorrelatedPropagation
    | Deadargelim
    | DSE
    | EarlyCSE
    | Indvars
    | Inline
    | IPSCCP
    | LICM
    | LoopDeletion
    | TBAA
    | Barrier
    | Basiccg
    | BlockFreq
    | BranchProb
    | Functionattrs
    | Globaldce
    | Globalopt
    | GVN
    | InlineCost
    | JumpThreading
    | LazyValueInfo
    | LoopUnswitch
    | LoopIdiom
    | LoopUnroll
    | LoopVectorize
    | Memcpyopt
    | Memdep
    | NoAA
    | PruneEH
    | SCCP
    | SLPVectorizer
    | SROA
    | StripDeadPrototypes
    | OptLevel3
    | PollyCanonicalize

  function Flag(p: Pass): string
  {
    match p
    case Domtree => "-domtree"
    case Mem2Reg => "-mem2reg"
    case Instcombine => "-instcombine"
    case Simplifycfg => "-simplifycfg"
    case Tailcallelim => "-tailcallelim"
    case Reassociate => "-reassociate"
    case Loops => "-loops"
    case LoopSimplify => "-loop-simplify"
    case LCSSA => "-lcssa"
    case LoopRotate => "-loop-rotate"
    case ScalarEvolution => "-scalar-evolution"
    case IVUsers => "-iv-users"
    case PollyIndvars => "-polly-indvars"
    case PollyPrepare => "-polly-prepare"
    case NoTTI => "-notti"
    case Targetlibinfo => "-targetlibinfo"
    case ADCE => "-adce"
    case Argpromotion => "-argpromotion"
    case BasicAA => "-basicaa"
    case Constmerge => "-constmerge"
    case CorrelatedPropagation => "-correlated-propagation"
    case Deadargelim => "-deadargelim"
    case DSE => "-dse"
    case EarlyCSE => "-early-cse"
    case Indvars => "-indvars"
    case Inline => "-inline"
    case IPSCCP => "-ipsccp"
    case LICM => "-licm"
    case LoopDeletion => "-loop-deletion"
    case TBAA => "-tbaa"
    case Barrier => "-barrier"
    case Basiccg => "-basiccg"
    case BlockFreq => "-block-freq"
    case BranchProb => "-branch-prob"
    case Functionattrs => "-functionattrs"
    case Globaldce => "-globaldce"
    case Globalopt => "-globalopt"
    case GVN => "-gvn"
    case InlineCost => "-inline-cost"
    case JumpThreading => "-jump-threading"
    case LazyValueInfo => "-lazy-value-info"
    case LoopUnswitch => "-loop-unswitch"
    case LoopIdiom => "-loop-idiom"
    case LoopUnroll => "-loop-unroll"
    case LoopVectorize => "-loop-vectorize"
    case Memcpyopt => "-memcpyopt"
    case Memdep => "-memdep"
    case NoAA => "-no-aa"
    case PruneEH => "-prune-eh"
    case SCCP => "-sccp"
    case SLPVectorizer => "-slp-vectorizer"
    case SROA => "-sroa"
    case StripDeadPrototypes => "-strip-dead-prototypes"
    case OptLevel3 => "-O3"
    case PollyCanonicalize => "-polly-canonicalize"
  }

  /** Polly's preparation passes (`-polly-canonicalize`). */
  const PollyCanonicalizePasses: seq<Pass> :=
    [Domtree, Mem2Reg, Instcombine, Simplifycfg, Tailcallelim, Reassociate, Loops, LoopSimplify,
     LCSSA, LoopRotate, ScalarEvolution, IVUsers, PollyIndvars, PollyPrepare, NoTTI, Targetlibinfo]

  /** Passes of -O3 that are not among Polly's preparation passes (`-ipsccp` is listed twice). */
  const O3Passes: seq<Pass> :=
    [ADCE, Argpromotion, BasicAA, Constmerge, CorrelatedPropagation, Deadargelim, DSE, EarlyCSE,
     Indvars, Inline, IPSCCP, LICM, LoopDeletion, TBAA, Barrier, Basiccg, BlockFreq, BranchProb,
     Functionattrs, Globaldce, Globalopt, GVN, InlineCost, IPSCCP, JumpThreading, LazyValueInfo,
     LoopUnswitch, LoopIdiom, LoopUnroll, LoopVectorize, Memcpyopt, Memdep, NoAA, PruneEH, SCCP,
     SLPVectorizer, SROA, StripDeadPrototypes]

  /** The passes that appear most often in generated sequences. */
  const FrequentPasses: seq<Pass> :=
    [Inline, IPSCCP, BasicAA, PollyIndvars, GVN, Instcombine, PollyPrepare, Simplifycfg, Globaldce,
     JumpThreading, Mem2Reg, SROA, Globalopt, Functionattrs, EarlyCSE, LoopUnroll]

  /** Fixed pre-optimisation sequence, variant 1 (with `-inline`). */
  const PollyPreoptInline: seq<Pass> :=
    [Mem2Reg, EarlyCSE, Inline, Functionattrs, Instcombine, Globalopt, SROA, GVN, IPSCCP, BasicAA,
     Simplifycfg, JumpThreading, PollyIndvars, LoopUnroll, Globaldce, PollyPrepare]

  /** Fixed pre-optimisation sequence, variant 2 (without `-inline`), the recommended one. */
  const PollyPreopt: seq<Pass> :=
    [Mem2Reg, EarlyCSE, Functionattrs, Instcombine, Globalopt, SROA, GVN, IPSCCP, BasicAA,
     Simplifycfg, JumpThreading, PollyIndvars, LoopUnroll, Globaldce, PollyPrepare]

  /** The search heuristics that generate a custom sequence from a pool of candidate passes. */
  datatype Heuristic = Genetic1 | Genetic2 | HillClimber | Greedy

  /**
   * What the optimiser is run with: a fixed list, the list a heuristic
   * generates from `candidates`, or the list the topological-sort
   * generator produces. The generators themselves are outside the model.
   */
  datatype OptFlags =
    | Fixed(flags: seq<Pass>)
    | Generated(heuristic: Heuristic, candidates: seq<Pass>)
    | Toposorted

  /** The sequence names the selection recognises. */
  const KnownSequences: set<string> :=
    {"genetic1", "genetic2", "hill_climber", "greedy", "no_preparation",
     "polly-canonicalize", "toposort", "polly-preopt-inline", "polly-preopt"}

  /** The flags used when the sequence name is not recognised. */
  const DefaultOptFlags: seq<Pass> := [OptLevel3, PollyCanonicalize]

  /**
   * The flag selection of `__run_scop_detection` for the configured
   * `sequence` name. The genetic heuristics draw from -O3's passes and
   * Polly's preparation passes, the hill climber and the greedy search from
   * the frequent passes.
   */
  function SelectOptFlags(sequence: string): (r: OptFlags)
    ensures r.Generated? <==> sequence in {"genetic1", "genetic2", "hill_climber", "greedy"}
    ensures r.Generated? && r.heuristic in {Genetic1, Genetic2} ==> r.candidates == O3Passes + PollyCanonicalizePasses
    ensures r.Generated? && r.heuristic in {HillClimber, Greedy} ==> r.candidates == FrequentPasses
    ensures r.Toposorted? <==> sequence == "toposort"
    ensures sequence == "genetic1" ==> r == Generated(Genetic1, O3Passes + PollyCanonicalizePasses)
    ensures sequence == "genetic2" ==> r == Generated(Genetic2, O3Passes + PollyCanonicalizePasses)
    ensures sequence == "hill_climber" ==> r == Generated(HillClimber, FrequentPasses)
    ensures sequence == "greedy" ==> r == Generated(Greedy, FrequentPasses)
    ensures sequence == "no_preparation" ==> r == Fixed([])
    ensures sequence == "polly-canonicalize" ==> r == Fixed([PollyCanonicalize])
    ensures sequence == "polly-preopt-inline" ==> r == Fixed(PollyPreoptInline)
    ensures sequence == "polly-preopt" ==> r == Fixed(PollyPreopt)
  {
    if sequence == "genetic1" then Generated(Genetic1, O3Passes + PollyCanonicalizePasses)
    else if sequence == "genetic2" then Generated(Genetic2, O3Passes + PollyCanonicalizePasses)
    else if sequence == "hill_climber" then Generated(HillClimber, FrequentPasses)
    else if sequence == "greedy" then Generated(Greedy, FrequentPasses)
    else if sequence == "no_preparation" then Fixed([])
    else if sequence == "polly-canonicalize" then Fixed([PollyCanonicalize])
    else if sequence == "toposort" then Toposorted
    else if sequence == "polly-preopt-inline" then Fixed(PollyPreoptInline)
    else if sequence == "polly-preopt" then Fixed(PollyPreopt)
    else Fixed(DefaultOptFlags)
  }

  /** The default `-O3 -polly-canonicalize` is used exactly for the names that are not recognised. */
  lemma DefaultExactlyForUnknownNames(sequence: string)
    ensures SelectOptFlags(sequence) == Fixed(DefaultOptFlags) <==> sequence !in KnownSequences
  {
    if sequence in KnownSequences {
      assert SelectOptFlags(sequence) != Fixed(DefaultOptFlags) by {
        assert |PollyPreoptInline| != 2 && |PollyPreopt| != 2;
      }
    }
  }

  /** `s` with every occurrence of `x` removed. */
  function Without(s: seq<Pass>, x: Pass): (r: seq<Pass>)
    ensures x !in r && |r| <= |s|
    ensures forall y :: y in r <==> y in s && y != x
    ensures multiset(r) == multiset(s)[x := 0]
  {
    if s == [] then []
    else
      assert s == [s[0]] + s[1..];
      if s[0] == x then Without(s[1..], x)
      else [s[0]] + Without(s[1..], x)
  }

  /** How often `x` occurs in `s`. */
  function Occurrences(s: seq<Pass>, x: Pass): nat
  {
    multiset(s)[x]
  }

  /** Removal distributes over concatenation, so the passes that remain keep their relative order. */
  lemma {:induction false} WithoutAppend(a: seq<Pass>, b: seq<Pass>, x: Pass)
    ensures Without(a + b, x) == Without(a, x) + Without(b, x)
  {
    if a == [] {
      assert a + b == b;
    } else {
      assert (a + b)[0] == a[0] && (a + b)[1..] == a[1..] + b;
      WithoutAppend(a[1..], b, x);
    }
  }

  lemma {:induction false} WithoutAbsent(s: seq<Pass>, x: Pass)
    requires x !in s
    ensures Without(s, x) == s
  {
    if s != [] {
      WithoutAbsent(s[1..], x);
    }
  }

  /** Variant 1 is variant 2 with `-inline` placed third. */
  lemma PreoptInlineInsertsInline()
    ensures PollyPreoptInline == PollyPreopt[..2] + [Inline] + PollyPreopt[2..]
  {
    forall k | 0 <= k < |PollyPreoptInline|
      ensures PollyPreoptInline[k] == (PollyPreopt[..2] + [Inline] + PollyPreopt[2..])[k]
    {
    }
  }

  lemma InlineNotInPreopt()
    ensures Inline !in PollyPreopt
  {
    forall k | 0 <= k < |PollyPreopt| ensures PollyPreopt[k] != Inline {}
  }

  /** Variant 2 is variant 1 with its single `-inline` taken out, and nothing else changed. */
  lemma PreoptIsPreoptInlineWithoutInline()
    ensures Occurrences(PollyPreoptInline, Inline) == 1 && Inline !in PollyPreopt
    ensures PollyPreopt == Without(PollyPreoptInline, Inline)
    ensures PollyPreoptInline == PollyPreopt[..2] + [Inline] + PollyPreopt[2..]
  {
    PreoptInlineInsertsInline();
    InlineNotInPreopt();
    RemovingInsertedElement(PollyPreopt, 2, Inline);
  }

  /** Inserting an element that `s` lacks and then removing it gives `s` back; the element then occurs once. */
  lemma RemovingInsertedElement(s: seq<Pass>, i: nat, x: Pass)
    requires i <= |s| && x !in s
    ensures Without(s[..i] + [x] + s[i..], x) == s
    ensures Occurrences(s[..i] + [x] + s[i..], x) == 1
  {
    var front, back := s[..i], s[i..];
    assert s == front + back;
    WithoutAbsent(front, x);
    WithoutAbsent(back, x);
    WithoutAppend(front + [x], back, x);
    WithoutAppend(front, [x], x);
    assert Without([x], x) == [];
    OccurrencesOfInserted(front, back, x);
  }

  lemma OccurrencesOfInserted(front: seq<Pass>, back: seq<Pass>, x: Pass)
    requires x !in front && x !in back
    ensures Occurrences(front + [x] + back, x) == 1
  {
    assert multiset(front + [x] + back) == multiset(front) + multiset{x} + multiset(back);
  }

  /** Whether `p` is one of Polly's preparation passes. */
  predicate IsCanonicalizePass(p: Pass)
    ensures p in PollyCanonicalizePasses ==> IsCanonicalizePass(p)
  {
    p.Domtree? || p.Mem2Reg? || p.Instcombine? || p.Simplifycfg? || p.Tailcallelim? || p.Reassociate? ||
    p.Loops? || p.LoopSimplify? || p.LCSSA? || p.LoopRotate? || p.ScalarEvolution? || p.IVUsers? ||
    p.PollyIndvars? || p.PollyPrepare? || p.NoTTI? || p.Targetlibinfo?
  }

  lemma O3PassesHeadNotCanonicalize()
    ensures forall k :: 0 <= k < 19 ==> !IsCanonicalizePass(O3Passes[k])
  {
    forall k | 0 <= k < 10 ensures !IsCanonicalizePass(O3Passes[k]) {}
    forall k | 10 <= k < 19 ensures !IsCanonicalizePass(O3Passes[k]) {}
  }

  lemma O3PassesTailNotCanonicalize()
    ensures forall k :: 19 <= k < |O3Passes| ==> !IsCanonicalizePass(O3Passes[k])
  {
    forall k | 19 <= k < 29 ensures !IsCanonicalizePass(O3Passes[k]) {}
    forall k | 29 <= k < |O3Passes| ensures !IsCanonicalizePass(O3Passes[k]) {}
  }

  /** As their comment says, the -O3 list shares no pass with Polly's preparation passes. */
  lemma O3DisjointFromCanonicalize()
    ensures forall p :: p in O3Passes ==> p !in PollyCanonicalizePasses
  {
    O3PassesHeadNotCanonicalize();
    O3PassesTailNotCanonicalize();
    forall p | p in O3Passes ensures p !in PollyCanonicalizePasses {
      var k :| 0 <= k < |O3Passes| && O3Passes[k] == p;
      assert !IsCanonicalizePass(O3Passes[k]);
    }
  }
}
