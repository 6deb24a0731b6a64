/**
 * The image-reference normaliser `image.Parse(raw) -> (domain, name, err)`.
 *
 * Its behaviour is modelled on the Docker reference-normalisation rule that the
 * repository's test table agrees with:
 *   - the segment before the first '/' is a registry host iff it contains '.'
 *     or ':' or equals "localhost"; the host is the domain and the name is the
 *     input itself;
 *   - otherwise the domain is "docker.io" and the name is "docker.io/" followed
 *     by the input, with "library/" inserted when the input has no '/'.
 * The reference grammar is modelled only as far as `ValidReference` states.
 */
module ImageRef {

  const DefaultDomain: string := "docker.io"
  const OfficialRepoPrefix: string := "library/"

  datatype ParseResult =
    | Parsed(domain: string, name: string)
    | ParseError

  predicate IsAlnum(c: char)
  {
    ('a' <= c <= 'z') || ('A' <= c <= 'Z') || ('0' <= c <= '9')
  }

  /** Characters a reference may contain at all. */
  predicate IsReferenceChar(c: char)
  {
    IsAlnum(c) || c == '.' || c == '_' || c == '-' || c == '/' || c == ':' || c == '@'
  }

  /**
   * The modelled part of the reference grammar: the reference is non-empty,
   * every '/'-separated segment is non-empty and starts with a letter or digit
   * (so there are no "." or ".." segments), only reference characters occur and
   * there is at most one digest marker '@'.
   */
  predicate ValidReference(s: string)
  {
    && |s| > 0
    && IsAlnum(s[0])
    && (forall i :: 0 <= i < |s| ==> IsReferenceChar(s[i]))
    && (forall i :: 0 <= i < |s| && s[i] == '/' ==> i + 1 < |s| && IsAlnum(s[i + 1]))
    && (forall i, j :: 0 <= i < j < |s| && s[i] == '@' ==> s[j] != '@')
  }

  predicate HasPrefix(s: string, p: string)
  {
    |p| <= |s| && s[..|p|] == p
  }

  predicate HasSuffix(s: string, p: string)
  {
    |p| <= |s| && s[|s| - |p|..] == p
  }

  /** Position of the first `c` in `s`, or `|s|` when there is none. */
  function IndexOf(s: string, c: char): (i: nat)
    ensures i <= |s|
    ensures i < |s| ==> s[i] == c
    ensures forall j :: 0 <= j < i ==> s[j] != c
  {
    if |s| == 0 then 0
    else if s[0] == c then 0
    else 1 + IndexOf(s[1..], c)
  }

  /** A first segment names a registry host when it contains '.' or ':' or is "localhost". */
  predicate IsHostLike(seg: string)
  {
    '.' in seg || ':' in seg || seg == "localhost"
  }

  /**
   * Splits a reference into its registry domain and its fully qualified
   * name, or fails when the reference is not well formed.
   */
  function Parse(raw: string): (r: ParseResult)
    ensures r.Parsed? <==> ValidReference(raw)
    ensures r.Parsed? ==> r.domain != [] && '/' !in r.domain
    ensures r.Parsed? ==> HasPrefix(r.name, r.domain + "/")
    ensures r.Parsed? ==> HasSuffix(r.name, raw)
    ensures r.Parsed? ==> ValidReference(r.name)
  {
    if !ValidReference(raw) then ParseError
    else
      var i := IndexOf(raw, '/');
      if i < |raw| && IsHostLike(raw[..i]) then
        assert raw[..i] + "/" == raw[..i + 1];
        Parsed(raw[..i], raw)
      else if i < |raw| then
        DefaultDomainValid();
        JoinValid(DefaultDomain, raw);
        Parsed(DefaultDomain, DefaultDomain + "/" + raw)
      else
        DefaultDomainValid();
        JoinValid("library", raw);
        JoinValid(DefaultDomain, "library" + "/" + raw);
        assert DefaultDomain + "/" + ("library" + "/" + raw) == DefaultDomain + "/" + OfficialRepoPrefix + raw;
        Parsed(DefaultDomain, DefaultDomain + "/" + OfficialRepoPrefix + raw)
  }

  lemma DefaultDomainValid()
    ensures ValidReference(DefaultDomain) && '@' !in DefaultDomain && '/' !in DefaultDomain
    ensures ValidReference("library") && '@' !in "library"
  {
  }

  /** Two valid references joined by '/' form a valid reference when at most one holds a digest. */
  lemma JoinValid(a: string, b: string)
    requires ValidReference(a) && ValidReference(b)
    requires '@' !in a || '@' !in b
    ensures ValidReference(a + "/" + b)
  {
    var s := a + "/" + b;
    forall i | 0 <= i < |s| && s[i] == '/'
      ensures i + 1 < |s| && IsAlnum(s[i + 1])
    {
      if i + 1 == |a| + 1 {
        assert s[i + 1] == b[0];
      } else if i > |a| {
        assert s[i] == b[i - |a| - 1] && s[i + 1] == b[i - |a|];
      } else {
        assert s[i] == a[i];
        assert i + 1 < |a| ==> s[i + 1] == a[i + 1];
      }
    }
    forall i, j | 0 <= i < j < |s| && s[i] == '@'
      ensures s[j] != '@'
    {
      if j < |a| {
        assert s[i] == a[i] && s[j] == a[j];
      } else if i > |a| {
        assert s[i] == b[i - |a| - 1] && s[j] == b[j - |a| - 1];
      } else if i < |a| && j > |a| {
        assert s[i] == a[i] && s[j] == b[j - |a| - 1];
        assert '@' in a;
        assert b[j - |a| - 1] in b;
      }
    }
  }

  /** Appending characters that are neither '/' nor '@' keeps a reference valid. */
  lemma ExtendValid(a: string, b: string)
    requires ValidReference(a)
    requires forall i :: 0 <= i < |b| ==> IsReferenceChar(b[i]) && b[i] != '/' && b[i] != '@'
    ensures ValidReference(a + b)
  {
    var s := a + b;
    forall i | 0 <= i < |s| && s[i] == '/'
      ensures i + 1 < |s| && IsAlnum(s[i + 1])
    {
      assert i < |a|;
      assert s[i] == a[i];
    }
    forall i, j | 0 <= i < j < |s| && s[i] == '@'
      ensures s[j] != '@'
    {
      assert i < |a|;
      if j < |a| {
        assert s[i] == a[i] && s[j] == a[j];
      } else {
        assert s[j] == b[j - |a|];
      }
    }
  }

  /** The first '/' of `a + "/" + b` is the one after `a` when `a` has none. */
  lemma FirstSlash(a: string, b: string)
    requires '/' !in a
    ensures IndexOf(a + "/" + b, '/') == |a|
    ensures (a + "/" + b)[..|a|] == a
  {
    var s := a + "/" + b;
    var i := IndexOf(s, '/');
    assert s[|a|] == '/';
    assert forall j :: 0 <= j < |a| ==> s[j] == a[j];
  }

  // The three cases of the normalisation rule.

  /** A host-like first segment is the domain, and the name is the input verbatim. */
  lemma ParseExplicitHost(host: string, path: string)
    requires '/' !in host && IsHostLike(host)
    requires ValidReference(host + "/" + path)
    ensures Parse(host + "/" + path) == Parsed(host, host + "/" + path)
  {
    FirstSlash(host, path);
  }

  /**
   * A first segment that is not host-like is part of the repository path: the
   * domain is "docker.io" and the path is kept with no "library/" inserted.
   */
  lemma ParseDockerHubPath(first: string, path: string)
    requires '/' !in first && !IsHostLike(first)
    requires ValidReference(first + "/" + path)
    ensures Parse(first + "/" + path) == Parsed(DefaultDomain, DefaultDomain + "/" + first + "/" + path)
  {
    FirstSlash(first, path);
    assert DefaultDomain + "/" + (first + "/" + path) == DefaultDomain + "/" + first + "/" + path;
  }

  /** A reference without '/' is an official image: "docker.io/library/" is prefixed. */
  lemma ParseOfficialImage(repo: string)
    requires '/' !in repo
    requires ValidReference(repo)
    ensures Parse(repo) == Parsed(DefaultDomain, DefaultDomain + "/" + OfficialRepoPrefix + repo)
  {
    assert IndexOf(repo, '/') == |repo|;
  }

  /**
   * Normalisation is idempotent: the name Parse returns is already fully
   * qualified, so parsing it again gives the same domain and the same name.
   */
  lemma {:induction false} ParseIdempotent(raw: string)
    requires Parse(raw).Parsed?
    ensures Parse(Parse(raw).name) == Parse(raw)
  {
    var i := IndexOf(raw, '/');
    if i < |raw| && IsHostLike(raw[..i]) {
    } else {
      DefaultDomainValid();
      var rest := if i < |raw| then raw else OfficialRepoPrefix + raw;
      assert Parse(raw).name == DefaultDomain + "/" + rest;
      assert IsHostLike(DefaultDomain) by { assert DefaultDomain[6] == '.'; }
      ParseExplicitHost(DefaultDomain, rest);
    }
  }

  // The six vectors of the repository's test table for Parse. Each vector's
  // input is a parameter fixed by the requires clause and is written as its
  // segments joined by "/", so that the verifier reasons from the
  // normalisation rule and facts about the short segments instead of
  // unfolding Parse on a long literal.

  /** Assembles a vector with an explicit host from facts about its pieces. */
  lemma HostVector(raw: string, host: string, path: string)
    requires raw == host + "/" + path
    requires ValidReference(host) && '@' !in host && '/' !in host && IsHostLike(host)
    requires ValidReference(path)
    ensures Parse(raw) == Parsed(host, raw)
  {
    JoinValid(host, path);
    ParseExplicitHost(host, path);
  }

  lemma ParseVectorUserRepository(raw: string)
    requires raw == "stilleshan" + "/" + "frpc:latest"
    ensures Parse(raw) == Parsed("docker.io", "docker.io" + "/" + "stilleshan" + "/" + "frpc:latest")
  {
    UserRepositorySegments();
    JoinValid("stilleshan", "frpc:latest");
    ParseDockerHubPath("stilleshan", "frpc:latest");
  }

  /** Both segments of `stilleshan/frpc:latest` are valid, and the first is not a host. */
  lemma UserRepositorySegments()
    ensures ValidReference("stilleshan") && '@' !in "stilleshan" && '/' !in "stilleshan"
    ensures !IsHostLike("stilleshan")
    ensures ValidReference("frpc:latest")
  {
  }

  lemma ParseVectorOfficialImage(raw: string)
    requires raw == "nginx:latest"
    ensures Parse(raw) == Parsed("docker.io", "docker.io/library/nginx:latest")
  {
    OfficialImagePieces();
    ParseOfficialImage(raw);
  }

  /** `nginx:latest` is a valid single segment, and its official name is the expected text. */
  lemma OfficialImagePieces()
    ensures ValidReference("nginx:latest") && '/' !in "nginx:latest"
    ensures DefaultDomain + "/" + OfficialRepoPrefix + "nginx:latest" == "docker.io/library/nginx:latest"
  {
  }

  /** `ghcr.io` is a valid host segment. */
  lemma GhcrHost()
    ensures ValidReference("ghcr.io") && '@' !in "ghcr.io" && '/' !in "ghcr.io" && IsHostLike("ghcr.io")
  {
  }

  /** Joining with '/' regroups: `a/(b/c)` is `(a/b)/c`. */
  lemma SlashAssoc(a: string, b: string, c: string)
    ensures a + "/" + (b + "/" + c) == a + "/" + b + "/" + c
  {
  }

  lemma ParseVectorGhcrTwoLevel(raw: string)
    requires raw == "ghcr.io" + "/" + "nginxinc" + "/" + "nginx-kubernetes-gateway:edge"
    ensures Parse(raw) == Parsed("ghcr.io", raw)
  {
    GhcrHost();
    GatewayValid();
    NginxincSegment();
    JoinValid("nginxinc", "nginx-kubernetes-gateway:edge");
    SlashAssoc("ghcr.io", "nginxinc", "nginx-kubernetes-gateway:edge");
    HostVector(raw, "ghcr.io", "nginxinc" + "/" + "nginx-kubernetes-gateway:edge");
  }

  lemma ParseVectorGhcrThreeLevel(raw: string)
    requires raw == "ghcr.io" + "/" + "nginxinc" + "/" + "nginx-kubernetes-gateway" + "/" + "nginx:edge"
    ensures Parse(raw) == Parsed("ghcr.io", raw)
  {
    GhcrHost();
    GatewayValid();
    NginxincSegment();
    var tail := "nginx-kubernetes-gateway" + "/" + "nginx:edge";
    JoinValid("nginx-kubernetes-gateway", "nginx:edge");
    JoinValid("nginxinc", tail);
    SlashAssoc("nginxinc", "nginx-kubernetes-gateway", "nginx:edge");
    SlashAssoc("ghcr.io", "nginxinc", tail);
    SlashAssoc("ghcr.io" + "/" + "nginxinc", "nginx-kubernetes-gateway", "nginx:edge");
    HostVector(raw, "ghcr.io", "nginxinc" + "/" + tail);
  }

  /** The organisation segment of the ghcr.io vectors, and their image segment, are valid. */
  lemma NginxincSegment()
    ensures ValidReference("nginxinc") && '@' !in "nginxinc"
    ensures ValidReference("nginx:edge")
  {
  }

  /** The longest repository segment of the table, built up in valid pieces. */
  lemma GatewayValid()
    ensures ValidReference("nginx-kubernetes-gateway") && '@' !in "nginx-kubernetes-gateway"
    ensures ValidReference("nginx-kubernetes-gateway:edge")
  {
    GatewayPieces();
    ExtendValid("nginx-kubernetes", "-gateway");
    ExtendValid("nginx-kubernetes-gateway", ":edge");
  }

  /** The pieces the gateway segment is built from are valid and concatenate to it. */
  lemma GatewayPieces()
    ensures ValidReference("nginx-kubernetes") && '@' !in "nginx-kubernetes-gateway"
    ensures forall i :: 0 <= i < |"-gateway"| ==> IsReferenceChar("-gateway"[i]) && "-gateway"[i] != '/' && "-gateway"[i] != '@'
    ensures forall i :: 0 <= i < |":edge"| ==> IsReferenceChar(":edge"[i]) && ":edge"[i] != '/' && ":edge"[i] != '@'
    ensures "nginx-kubernetes" + "-gateway" == "nginx-kubernetes-gateway"
    ensures "nginx-kubernetes-gateway" + ":edge" == "nginx-kubernetes-gateway:edge"
  {
  }

  /** `registry.k8s.io` is a valid host segment. */
  lemma K8sHost()
    ensures ValidReference("registry.k8s.io") && '@' !in "registry.k8s.io" && '/' !in "registry.k8s.io"
    ensures IsHostLike("registry.k8s.io")
  {
  }

  lemma ParseVectorK8sOneLevel(raw: string)
    requires raw == "registry.k8s.io" + "/" + "kube-apiserver:v1.28.0"
    ensures Parse(raw) == Parsed("registry.k8s.io", raw)
  {
    K8sHost();
    KubeApiserverSegment();
    HostVector(raw, "registry.k8s.io", "kube-apiserver:v1.28.0");
  }

  lemma ParseVectorK8sTwoLevel(raw: string)
    requires raw == "registry.k8s.io" + "/" + "gateway-api" + "/" + "admission-server:v0.8.0"
    ensures Parse(raw) == Parsed("registry.k8s.io", raw)
  {
    K8sHost();
    GatewayApiSegments();
    JoinValid("gateway-api", "admission-server:v0.8.0");
    SlashAssoc("registry.k8s.io", "gateway-api", "admission-server:v0.8.0");
    HostVector(raw, "registry.k8s.io", "gateway-api" + "/" + "admission-server:v0.8.0");
  }

  /** The repository segment of the one-level registry.k8s.io vector is valid. */
  lemma KubeApiserverSegment()
    ensures ValidReference("kube-apiserver:v1.28.0")
  {
  }

  /** The two path segments of the two-level registry.k8s.io vector are valid. */
  lemma GatewayApiSegments()
    ensures ValidReference("gateway-api") && '@' !in "gateway-api"
    ensures ValidReference("admission-server:v0.8.0")
  {
  }
}
