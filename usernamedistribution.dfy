/**
 * The username-distribution deployment of common/usernamedistribution: the
 * web application that hands out workshop user names. Besides metadata it
 * carries the application's configuration as environment variables, one of
 * which, LAB_MODULE_URLS, is assembled from the workshop's guides.
 */
module UsernameDistribution {
  import opened Wrappers
  import opened Meta

  const Image: string := "quay.io/mcouliba/username-distribution:latest"
  /** LAB_MODULE_URLS when no guide is configured. */
  const DefaultLabModuleURLs: string :=
    "https://docs.openshift.com/container-platform/latest/welcome/index.html;openshift_docs"

  datatype EnvVar = EnvVar(name: string, value: string)
  datatype ContainerPort = ContainerPort(containerPort: int, protocol: string)
  datatype Container = Container(name: string, env: seq<EnvVar>, image: string,
                                 imagePullPolicy: string, ports: seq<ContainerPort>)
  datatype PodTemplate = PodTemplate(labels: map<string, string>, containers: seq<Container>)
  datatype Deployment = Deployment(meta: ObjectMeta, selectorLabels: map<string, string>,
                                   strategy: string, template: PodTemplate)

  // ---------------------------------------------------------------------
  // strconv.Itoa

  predicate IsDigits(s: string)
  {
    forall i :: 0 <= i < |s| ==> '0' <= s[i] <= '9'
  }

  function DigitChar(d: nat): (c: char)
    requires d < 10
    ensures '0' <= c <= '9' && (c == '0' <==> d == 0)
  {
    ('0' as int + d) as char
  }

  /** Decimal digits of `n`, most significant first, without leading zeros. */
  function NatToDecimal(n: nat): (s: string)
    ensures |s| >= 1 && IsDigits(s)
    ensures s[0] == '0' <==> n == 0
    ensures n == 0 ==> s == "0"
    decreases n
  {
    if n < 10 then [DigitChar(n)] else NatToDecimal(n / 10) + [DigitChar(n % 10)]
  }

  /** strconv.Itoa: the decimal form of an integer, with a minus sign when negative. */
  function Itoa(i: int): (s: string)
    ensures i < 0 ==> |s| >= 2 && s[0] == '-' && IsDigits(s[1..]) && s[1] != '0'
    ensures i >= 0 ==> |s| >= 1 && IsDigits(s) && (s[0] == '0' <==> i == 0)
  {
    if i < 0 then "-" + NatToDecimal(-i) else NatToDecimal(i)
  }

  /** The value of a string of decimal digits. */
  function DecimalValue(s: string): nat
    requires IsDigits(s)
  {
    if s == [] then 0 else DecimalValue(s[..|s| - 1]) * 10 + (s[|s| - 1] as int - '0' as int)
  }

  /** The value of a decimal integer with an optional leading minus sign. */
  function IntValue(s: string): int
    requires (|s| > 0 && s[0] == '-' && IsDigits(s[1..])) || IsDigits(s)
  {
    if |s| > 0 && s[0] == '-' then -(DecimalValue(s[1..]) as int) else DecimalValue(s)
  }

  lemma {:induction false} NatToDecimalRoundTrip(n: nat)
    ensures DecimalValue(NatToDecimal(n)) == n
    decreases n
  {
    if n >= 10 {
      var s := NatToDecimal(n);
      assert s[..|s| - 1] == NatToDecimal(n / 10);
      NatToDecimalRoundTrip(n / 10);
    }
  }

  /** LAB_USER_COUNT reads back as the user count it was written from. */
  lemma ItoaRoundTrip(i: int)
    ensures IntValue(Itoa(i)) == i
  {
    if i < 0 {
      assert Itoa(i)[1..] == NatToDecimal(-i);
      NatToDecimalRoundTrip(-i);
    } else {
      NatToDecimalRoundTrip(i);
    }
  }

  // ---------------------------------------------------------------------
  // Guide URLs

  /** The query string appended to every guide URL. */
  function GuideURLParameters(appsHostnameSuffix: string, password: string,
                              escapedGitURL: string, gitBranch: string): string
  {
    "APPS_HOSTNAME_SUFFIX=" + appsHostnameSuffix
      + "&USER_ID=%USER_ID%"
      + "&OPENSHIFT_PASSWORD=" + password
      + "&WORKSHOP_GIT_REPO=" + escapedGitURL
      + "&WORKSHOP_GIT_REF=" + gitBranch
  }

  /** One LAB_MODULE_URLS entry: "<url>?<params>;<name>". */
  function ModuleEntry(guideName: string, guideURL: string, params: string): string
  {
    guideURL + "?" + params + ";" + guideName
  }

  /** `order` lists every key of `guides` exactly once: one iteration order of the map. */
  predicate Enumerates(order: seq<string>, guides: map<string, string>)
  {
    && (forall i :: 0 <= i < |order| ==> order[i] in guides)
    && (forall k :: k in guides ==> k in order)
    && (forall i, j :: 0 <= i < j < |order| ==> order[i] != order[j])
  }

  /** The entries for the guides, visited in `order`. */
  function ModuleEntries(order: seq<string>, guides: map<string, string>, params: string): (es: seq<string>)
    requires forall i :: 0 <= i < |order| ==> order[i] in guides
    ensures |es| == |order|
    ensures forall i :: 0 <= i < |order| ==> es[i] == ModuleEntry(order[i], guides[order[i]], params)
  {
    seq(|order|, i requires 0 <= i < |order| => ModuleEntry(order[i], guides[order[i]], params))
  }

  /** The entries separated by commas, built from the left as the source's loop does. */
  function CommaJoin(xs: seq<string>): string
  {
    if |xs| == 0 then ""
    else if |xs| == 1 then xs[0]
    else CommaJoin(xs[..|xs| - 1]) + "," + xs[|xs| - 1]
  }

  /** The value of LAB_MODULE_URLS. */
  function ModuleURLs(scholarsEnabled: bool, order: seq<string>, guides: map<string, string>, params: string): string
    requires forall i :: 0 <= i < |order| ==> order[i] in guides
  {
    if scholarsEnabled && |order| > 0 then CommaJoin(ModuleEntries(order, guides, params))
    else DefaultLabModuleURLs
  }

  /**
   * The comma-joined list is the first entry followed by ",<entry>" for each
   * later one: no separator before the first entry or after the last.
   */
  lemma {:induction false} CommaJoinFirstRest(xs: seq<string>)
    requires |xs| >= 2
    ensures CommaJoin(xs) == xs[0] + "," + CommaJoin(xs[1..])
    decreases |xs|
  {
    var n := |xs|;
    if n > 2 {
      assert xs[..n - 1][1..] == xs[1..][..n - 2];
      CommaJoinFirstRest(xs[..n - 1]);
      assert xs[1..][n - 2] == xs[n - 1];
    } else {
      assert xs[..1] == [xs[0]];
      assert xs[1..] == [xs[1]];
    }
  }

  /** The list starts with the first entry and ends with the last one. */
  lemma {:induction false} CommaJoinBounds(xs: seq<string>)
    requires |xs| >= 1
    ensures |CommaJoin(xs)| >= |xs[0]| && CommaJoin(xs)[..|xs[0]|] == xs[0]
    ensures |CommaJoin(xs)| >= |xs[|xs| - 1]| && CommaJoin(xs)[|CommaJoin(xs)| - |xs[|xs| - 1]|..] == xs[|xs| - 1]
    decreases |xs|
  {
    if |xs| >= 2 {
      CommaJoinBounds(xs[..|xs| - 1]);
      var j := CommaJoin(xs[..|xs| - 1]);
      assert CommaJoin(xs) == j + ("," + xs[|xs| - 1]);
      assert (j + ("," + xs[|xs| - 1]))[..|xs[0]|] == j[..|xs[0]|];
    }
  }

  /** A sequence listing every key of a map once has one element per key. */
  lemma {:induction false} EnumerationSize(order: seq<string>, guides: map<string, string>)
    requires Enumerates(order, guides)
    ensures |order| == |guides|
    decreases |order|
  {
    if order == [] {
      assert guides.Keys == {};
    } else {
      var k := order[|order| - 1];
      var rest := order[..|order| - 1];
      var smaller := guides - {k};
      forall g | g in smaller ensures g in rest {
        assert g in order && g != k;
        var i :| 0 <= i < |order| && order[i] == g;
        assert i < |order| - 1;
        assert rest[i] == g;
      }
      EnumerationSize(rest, smaller);
    }
  }

  /**
   * With Scholars on and guides configured, LAB_MODULE_URLS holds one entry
   * per guide, whatever order the map is visited in, starting with the first
   * guide's entry and ending with the last's; with Scholars off or no guides,
   * it is the OpenShift documentation default.
   */
  lemma ModuleURLsShape(scholarsEnabled: bool, order: seq<string>, guides: map<string, string>, params: string)
    requires Enumerates(order, guides)
    ensures !scholarsEnabled || |guides| == 0 ==> ModuleURLs(scholarsEnabled, order, guides, params) == DefaultLabModuleURLs
    ensures scholarsEnabled && |guides| > 0 ==>
              var es := ModuleEntries(order, guides, params);
              var urls := ModuleURLs(scholarsEnabled, order, guides, params);
              && |es| == |guides|
              && urls == CommaJoin(es)
              && |urls| >= |es[0]| && |urls| >= |es[|es| - 1]|
              && urls[..|es[0]|] == es[0]
              && urls[|urls| - |es[|es| - 1]|..] == es[|es| - 1]
  {
    EnumerationSize(order, guides);
    if |order| > 0 {
      CommaJoinBounds(ModuleEntries(order, guides, params));
    }
  }

  /**
   * The loop that builds LAB_MODULE_URLS: the first guide replaces the
   * default, every later one is appended after a comma.
   */
  method LabModuleURLs(scholarsEnabled: bool, order: seq<string>, guides: map<string, string>, params: string)
    returns (labModuleURLs: string)
    requires Enumerates(order, guides)
    ensures labModuleURLs == ModuleURLs(scholarsEnabled, order, guides, params)
  {
    labModuleURLs := DefaultLabModuleURLs;
    if scholarsEnabled {
      ghost var entries := ModuleEntries(order, guides, params);
      var isFirst := true;
      var i := 0;
      while i < |order|
        invariant 0 <= i <= |order|
        invariant isFirst <==> i == 0
        invariant isFirst ==> labModuleURLs == DefaultLabModuleURLs
        invariant !isFirst ==> labModuleURLs == CommaJoin(entries[..i])
      {
        var guideName := order[i];
        var guideURL := guides[guideName];
        if isFirst {
          labModuleURLs := guideURL + "?" + params + ";" + guideName;
          isFirst := false;
        } else {
          labModuleURLs := labModuleURLs + "," + guideURL + "?" + params + ";" + guideName;
        }
        assert entries[..i + 1][..i] == entries[..i];
        i := i + 1;
      }
      assert entries[..|order|] == entries;
    }
  }

  /** The value of the first environment variable called `name`, if any. */
  function EnvValue(env: seq<EnvVar>, name: string): Option<string>
  {
    if env == [] then None
    else if env[0].name == name then Some(env[0].value)
    else EnvValue(env[1..], name)
  }

  /** The variable at position `i` is the first one carrying its name, so lookup finds it. */
  lemma {:induction false} EnvValueAt(env: seq<EnvVar>, i: nat)
    requires i < |env|
    requires forall j :: 0 <= j < i ==> env[j].name != env[i].name
    ensures EnvValue(env, env[i].name) == Some(env[i].value)
    decreases i
  {
    if i > 0 {
      EnvValueAt(env[1..], i - 1);
    }
  }

  function EnvNames(env: seq<EnvVar>): seq<string>
  {
    seq(|env|, i requires 0 <= i < |env| => env[i].name)
  }

  /** The container's environment, in the order the source lists it. */
  function LabEnv(redisServiceName: string, users: int, password: string, labModuleURLs: string): seq<EnvVar>
  {
    [ EnvVar("LAB_REDIS_HOST", redisServiceName),
      EnvVar("LAB_REDIS_PASS", redisServiceName),
      EnvVar("LAB_TITLE", "OpenShift Workshops"),
      EnvVar("LAB_DURATION_HOURS", "1week"),
      EnvVar("LAB_USER_COUNT", Itoa(users)),
      EnvVar("LAB_USER_ACCESS_TOKEN", password),
      EnvVar("LAB_USER_PASS", password),
      EnvVar("LAB_USER_PREFIX", "user"),
      EnvVar("LAB_USER_PAD_ZERO", "false"),
      EnvVar("LAB_ADMIN_PASS", "r3dh4t1!"),
      EnvVar("LAB_MODULE_URLS", labModuleURLs) ]
  }

  /**
   * What the username-distribution application reads from its environment:
   * the Redis host doubles as its password, the workshop password is both the
   * access token and the user password, and users are named "user<n>" without
   * zero padding.
   */
  lemma {:induction false} LabEnvLookup(redisServiceName: string, users: int, password: string, labModuleURLs: string)
    ensures var env := LabEnv(redisServiceName, users, password, labModuleURLs);
      && EnvValue(env, "LAB_REDIS_HOST") == EnvValue(env, "LAB_REDIS_PASS") == Some(redisServiceName)
      && EnvValue(env, "LAB_USER_ACCESS_TOKEN") == EnvValue(env, "LAB_USER_PASS") == Some(password)
      && EnvValue(env, "LAB_USER_COUNT") == Some(Itoa(users))
      && EnvValue(env, "LAB_USER_PREFIX") == Some("user")
      && EnvValue(env, "LAB_USER_PAD_ZERO") == Some("false")
      && EnvValue(env, "LAB_MODULE_URLS") == Some(labModuleURLs)
  {
    var env := LabEnv(redisServiceName, users, password, labModuleURLs);
    // names of equal length differ at one of these positions
    assert env[1].name[10] != env[0].name[10];
    assert env[4].name[4] != env[0].name[4] && env[4].name[4] != env[1].name[4];
    assert env[10].name[4] != env[7].name[4];
    EnvValueAt(env, 0);
    EnvValueAt(env, 1);
    EnvValueAt(env, 4);
    EnvValueAt(env, 5);
    EnvValueAt(env, 6);
    EnvValueAt(env, 7);
    EnvValueAt(env, 8);
    EnvValueAt(env, 10);
  }

  /**
   * NewDeployment: the username-distribution deployment in the workshop's
   * namespace. `queryEscape` stands for url.QueryEscape and `guideOrder` for the
   * order in which Go happens to visit the guide map.
   */
  method NewDeployment(workshop: Workshop, scheme: Scheme, name: string, labels: map<string, string>,
                       redisServiceName: string, users: int, appsHostnameSuffix: string,
                       openshiftConsoleURL: string, queryEscape: string -> string, guideOrder: seq<string>)
    returns (dep: Deployment)
    requires Enumerates(guideOrder, workshop.spec.infrastructure.scholars.guideURL)
    ensures dep.meta.name == name && dep.meta.namespace == workshop.namespace
    ensures dep.meta.labels == labels && dep.selectorLabels == labels && dep.template.labels == labels
    ensures dep.strategy == "RollingUpdate"
    ensures |dep.template.containers| == 1
    ensures var c := dep.template.containers[0];
      && c.name == name
      && c.image == Image
      && c.ports == [ContainerPort(8080, "TCP")]
      && EnvNames(c.env) == ["LAB_REDIS_HOST", "LAB_REDIS_PASS", "LAB_TITLE", "LAB_DURATION_HOURS",
                             "LAB_USER_COUNT", "LAB_USER_ACCESS_TOKEN", "LAB_USER_PASS", "LAB_USER_PREFIX",
                             "LAB_USER_PAD_ZERO", "LAB_ADMIN_PASS", "LAB_MODULE_URLS"]
      && EnvValue(c.env, "LAB_REDIS_HOST") == EnvValue(c.env, "LAB_REDIS_PASS") == Some(redisServiceName)
      && EnvValue(c.env, "LAB_USER_ACCESS_TOKEN") == EnvValue(c.env, "LAB_USER_PASS")
         == Some(workshop.spec.user.password)
      && EnvValue(c.env, "LAB_USER_COUNT") == Some(Itoa(users))
      && EnvValue(c.env, "LAB_USER_PREFIX") == Some("user")
      && EnvValue(c.env, "LAB_USER_PAD_ZERO") == Some("false")
      && EnvValue(c.env, "LAB_MODULE_URLS")
         == Some(ModuleURLs(workshop.spec.infrastructure.scholars.enabled, guideOrder,
                            workshop.spec.infrastructure.scholars.guideURL,
                            GuideURLParameters(appsHostnameSuffix, workshop.spec.user.password,
                                               queryEscape(workshop.spec.source.gitURL),
                                               workshop.spec.source.gitBranch)))
    ensures scheme.registersWorkshop ==> dep.meta.ownerReferences == [ControllerRefTo(workshop)]
    ensures !scheme.registersWorkshop ==> dep.meta.ownerReferences == []
  {
    var params := GuideURLParameters(appsHostnameSuffix, workshop.spec.user.password,
                                     queryEscape(workshop.spec.source.gitURL), workshop.spec.source.gitBranch);
    var labModuleURLs := LabModuleURLs(workshop.spec.infrastructure.scholars.enabled, guideOrder,
                                       workshop.spec.infrastructure.scholars.guideURL, params);
    var env := LabEnv(redisServiceName, users, workshop.spec.user.password, labModuleURLs);
    LabEnvLookup(redisServiceName, users, workshop.spec.user.password, labModuleURLs);
    var container := Container(name, env, Image, "IfNotPresent", [ContainerPort(8080, "TCP")]);
    var meta := ObjectMeta(name, workshop.namespace, labels, []);
    dep := Deployment(WithControllerReference(meta, workshop, scheme), labels, "RollingUpdate",
                      PodTemplate(labels, [container]));
  }
}
