/** Host routing (src/regions.rs): every broad region and every game-server platform
    names its host as a fixed label, a dot, and the configured base host. The base
    host, a compile-time environment value in the source, is a parameter here.
    `Route` stands for any value with a `host` method (the `WithHosts` trait). */
module Regions {
  import opened Strings

  datatype Region = Americas | Asia | Europe

  datatype Platform = Br1 | Eun1 | Euw1 | Jp1 | Kr | La1 | La2 | Na1 | Oc1 | Tr1 | Ru

  datatype Route = RegionRoute(region: Region) | PlatformRoute(platform: Platform)

  /** `<Regions as WithHosts>::host`. */
  function RegionHost(r: Region, base: string): string {
    match r
    case Americas => "americas." + base
    case Asia => "asia." + base
    case Europe => "europe." + base
  }

  /** `<Platforms as WithHosts>::host`. */
  function PlatformHost(p: Platform, base: string): string {
    match p
    case Br1 => "br1." + base
    case Eun1 => "eun1." + base
    case Euw1 => "euw1." + base
    case Jp1 => "jp1." + base
    case Kr => "kr." + base
    case La1 => "la1." + base
    case La2 => "la2." + base
    case Na1 => "na1." + base
    case Oc1 => "oc1." + base
    case Tr1 => "tr1." + base
    case Ru => "ru." + base
  }

  /** `host` of any routing value. Total: no variant is left out, none fails. */
  function Host(route: Route, base: string): string {
    match route
    case RegionRoute(r) => RegionHost(r, base)
    case PlatformRoute(p) => PlatformHost(p, base)
  }

  /** The DNS label of each routing value: lower-case letters and digits, no dot. */
  function Label(route: Route): (l: string)
    ensures |l| >= 2
    ensures forall i :: 0 <= i < |l| ==> IsLowerChar(l[i]) || IsDigitChar(l[i])
    ensures '.' !in l
  {
    match route
    case RegionRoute(Americas) => "americas"
    case RegionRoute(Asia) => "asia"
    case RegionRoute(Europe) => "europe"
    case PlatformRoute(Br1) => "br1"
    case PlatformRoute(Eun1) => "eun1"
    case PlatformRoute(Euw1) => "euw1"
    case PlatformRoute(Jp1) => "jp1"
    case PlatformRoute(Kr) => "kr"
    case PlatformRoute(La1) => "la1"
    case PlatformRoute(La2) => "la2"
    case PlatformRoute(Na1) => "na1"
    case PlatformRoute(Oc1) => "oc1"
    case PlatformRoute(Tr1) => "tr1"
    case PlatformRoute(Ru) => "ru"
  }

  /** The host is the label, one dot, and the base host. */
  lemma HostIsLabelDotBase(route: Route, base: string)
    ensures Host(route, base) == Label(route) + "." + base
  {
    var l := Label(route);
    assert Host(route, base) == (l + ".") + base by {
      match route
      case RegionRoute(Americas) =>
      case RegionRoute(Asia) =>
      case RegionRoute(Europe) =>
      case PlatformRoute(Br1) =>
      case PlatformRoute(Eun1) =>
      case PlatformRoute(Euw1) =>
      case PlatformRoute(Jp1) =>
      case PlatformRoute(Kr) =>
      case PlatformRoute(La1) =>
      case PlatformRoute(La2) =>
      case PlatformRoute(Na1) =>
      case PlatformRoute(Oc1) =>
      case PlatformRoute(Tr1) =>
      case PlatformRoute(Ru) =>
    }
  }

  /** The fourteen labels are pairwise distinct. */
  lemma LabelInjective(a: Route, b: Route)
    requires Label(a) == Label(b)
    ensures a == b
  {
  }

  /** For a fixed base host, different routing values get different hosts. */
  lemma HostInjective(a: Route, b: Route, base: string)
    requires Host(a, base) == Host(b, base)
    ensures a == b
  {
    HostIsLabelDotBase(a, base);
    HostIsLabelDotBase(b, base);
    SuffixCancel(Label(a) + ".", Label(b) + ".", base);
    SuffixCancel(Label(a), Label(b), ".");
    LabelInjective(a, b);
  }

  /** Whatever the base host, the text before the first dot is the label. */
  lemma HostLabelBeforeFirstDot(route: Route, base: string)
    ensures Until('.', Host(route, base)) == Label(route)
  {
    HostIsLabelDotBase(route, base);
    UntilAppend('.', Label(route), base);
  }

  /** The host ends with the base host and has exactly the label's length, one, and
      the base's length. */
  lemma HostLengthAndSuffix(route: Route, base: string)
    ensures |Host(route, base)| == |Label(route)| + 1 + |base|
    ensures EndsWith(Host(route, base), base)
    ensures StartsWith(Host(route, base), Label(route) + ".")
  {
    HostIsLabelDotBase(route, base);
  }
}
