/** Dynamically generated Gentoo portage projects and the package atom they emerge. */
module Portage {

  /** Python's `s[start:]` for a non-negative start: empty once `start` is past the end. */
  function Suffix(s: string, start: nat): (r: string)
    ensures start <= |s| ==> r == s[start..]
    ensures start > |s| ==> r == ""
  {
    if start <= |s| then s[start..] else ""
  }

  /**
   * The package atom `AutoPortage.build` emerges: the domain, a slash, and
   * what follows the domain and one separator character in `name`.
   */
  function PackageAtom(domain: string, name: string): (prog: string)
    ensures domain + "/" <= prog
    ensures |prog| == |domain| + 1 + (if |name| > |domain| + 1 then |name| - |domain| - 1 else 0)
  {
    domain + "/" + Suffix(name, |domain| + 1)
  }

  /** A name of the form domain, one separator, package gives back domain/package, as long as the name. */
  lemma PackageAtomOfQualifiedName(domain: string, sep: char, pkg: string)
    ensures PackageAtom(domain, domain + [sep] + pkg) == domain + "/" + pkg
    ensures |PackageAtom(domain, domain + [sep] + pkg)| == |domain + [sep] + pkg|
  {
    assert (domain + [sep] + pkg)[|domain| + 1..] == pkg;
  }

  /** Deriving the atom from an atom changes nothing. */
  lemma PackageAtomIdempotent(domain: string, name: string)
    ensures PackageAtom(domain, PackageAtom(domain, name)) == PackageAtom(domain, name)
  {
    PackageAtomOfQualifiedName(domain, '/', Suffix(name, |domain| + 1));
  }

  /** What calling `run` on a generated project does, in order. */
  datatype Effect = LogInfo(message: string) | CleanProject

  /** The `run` of a generated project: log that runs are not supported, then clean when the `clean` setting is on. */
  function RunNotSupported(clean: bool): (effects: seq<Effect>)
    ensures |effects| >= 1 && effects[0] == LogInfo("run() not supported.")
    ensures CleanProject in effects <==> clean
    ensures forall k :: 1 <= k < |effects| ==> effects[k] == CleanProject
    ensures multiset(effects)[CleanProject] <= 1
  {
    [LogInfo("run() not supported.")] + (if clean then [CleanProject] else [])
  }

  /** How a generated class runs its project: through `RunNotSupported`, never the inherited run. */
  datatype RunBehaviour = NotSupported

  /** The class `PortageFactory` creates: its name, base class and class attributes. */
  datatype PortageClass = PortageClass(className: string, base: string, name: string, domain: string, group: string, run: RunBehaviour)

  const AutoGentooGroup := "auto-gentoo"

  /** `PortageFactory(name, NAME, DOMAIN, BaseClass)`: a class carrying the given name and domain in the auto-gentoo group. */
  function PortageFactory(className: string, name: string, domain: string, base: string := "AutoPortage"): (c: PortageClass)
    ensures c.className == className && c.base == base
    ensures c.name == name && c.domain == domain && c.group == "auto-gentoo"
    ensures c.run == NotSupported
  {
    PortageClass(className, base, name, domain, AutoGentooGroup, NotSupported)
  }
}
