/** Pod names, identities and volumes: how a pod is tied to its App and to its ordinal. */
module Identity {
  import opened Text
  import opened Kube

  // ---- pod names ----

  function PodName(appName: string, ordinal: int): string {
    appName + "-" + Decimal(ordinal)
  }

  /** The name of the App and the ordinal in a pod's name, or ("", -1) when there are none. */
  function ParsePodName(name: string): (string, int) {
    var parts := Split(name, '-');
    if |parts| < 2 then ("", -1)
    else match Atoi(parts[|parts| - 1])
      case Some(ordinal) => (Join(parts[..|parts| - 1], '-'), ordinal)
      case None => ("", -1)
  }

  function OrdinalOf(pod: Pod): int {
    ParsePodName(pod.name).1
  }

  /** Parsing inverts printing for every App name, hyphens included. */
  lemma ParsePrintedName(appName: string, ordinal: nat)
    requires ordinal <= MAX_INT64
    ensures ParsePodName(PodName(appName, ordinal)) == (appName, ordinal)
  {
    var digits := Itoa(ordinal);
    assert '-' !in digits by { assert forall i | 0 <= i < |digits| :: IsDigit(digits[i]); }
    SplitLast(appName, digits, '-');
    var parts := Split(appName, '-') + [digits];
    assert Split(PodName(appName, ordinal), '-') == parts;
    assert parts[..|parts| - 1] == Split(appName, '-');
    AtoiItoa(ordinal);
  }

  lemma PodNameIsInjective(appName: string, ordinal: nat, appName': string, ordinal': nat)
    requires ordinal <= MAX_INT64 && ordinal' <= MAX_INT64
    requires PodName(appName, ordinal) == PodName(appName', ordinal')
    ensures appName == appName' && ordinal == ordinal'
  {
    ParsePrintedName(appName, ordinal);
    ParsePrintedName(appName', ordinal');
  }

  /** What a parsed name looks like: the ordinal is never negative, because its text holds no hyphen. */
  lemma ParsedNameShape(name: string)
    ensures var (owner, ordinal) := ParsePodName(name);
            || (owner == "" && ordinal == -1)
            || (0 <= ordinal <= MAX_INT64 &&
                exists text: string :: '-' !in text && Atoi(text) == Some(ordinal) && name == owner + "-" + text)
  {
    var parts := Split(name, '-');
    if |parts| >= 2 && Atoi(parts[|parts| - 1]).Some? {
      JoinLast(parts, '-');
      var text := parts[|parts| - 1];
      assert text in parts;
      assert text[0] != '-';
      assert name == ParsePodName(name).0 + "-" + text;
    }
  }

  /** A pod that the reconciler's filter lets through has a usable ordinal. */
  lemma ClaimedPodHasOrdinal(appName: string, pod: Pod)
    requires appName != "" && ParsePodName(pod.name).0 == appName
    ensures 0 <= OrdinalOf(pod) <= MAX_INT64
  {
    ParsedNameShape(pod.name);
  }

  // ---- identity ----

  predicate MatchesApp(app: App, pod: Pod) {
    var (owner, ordinal) := ParsePodName(pod.name);
    && ordinal >= 0
    && app.name == owner
    && pod.name == PodName(app.name, ordinal)
    && pod.namespace == app.namespace
    && LABEL_OWNER_APP in pod.labels && pod.labels[LABEL_OWNER_APP] == app.name
  }

  function WithIdentity(app: App, pod: Pod): Pod {
    var ordinal := OrdinalOf(pod);
    pod.(name := PodName(app.name, ordinal), namespace := app.namespace,
         labels := pod.labels[LABEL_OWNER_APP := app.name][LABEL_ORDINAL := Decimal(ordinal)])
  }

  lemma LabelsDiffer()
    ensures LABEL_REVISION != LABEL_OWNER_APP && LABEL_REVISION != LABEL_ORDINAL && LABEL_OWNER_APP != LABEL_ORDINAL
  {
    assert |LABEL_REVISION| == 24 && |LABEL_OWNER_APP| == 25 && |LABEL_ORDINAL| == 28;
  }

  /** A pod's identity matches if and only if it has the printed name for some ordinal, the namespace and the label. */
  lemma MatchesAppIff(app: App, pod: Pod)
    ensures MatchesApp(app, pod) <==>
              && (exists ordinal: nat :: ordinal <= MAX_INT64 && pod.name == app.name + "-" + Itoa(ordinal))
              && pod.namespace == app.namespace
              && LABEL_OWNER_APP in pod.labels && pod.labels[LABEL_OWNER_APP] == app.name
  {
    if MatchesApp(app, pod) {
      ParsedNameShape(pod.name);
      var ordinal: nat := OrdinalOf(pod);
      assert pod.name == app.name + "-" + Itoa(ordinal);
    }
    if ordinal: nat :| ordinal <= MAX_INT64 && pod.name == app.name + "-" + Itoa(ordinal) {
      assert pod.name == PodName(app.name, ordinal);
      ParsePrintedName(app.name, ordinal);
    }
  }

  // ---- volumes ----

  function ClaimName(app: App, claim: string, ordinal: nat): string {
    claim + "-" + app.name + "-" + Itoa(ordinal)
  }

  function ClaimVolume(app: App, claim: string, ordinal: nat): Volume {
    Volume(claim, FromClaim(ClaimName(app, claim, ordinal)))
  }

  /** No two claims of an App, of one pod or of two, go by one name. */
  lemma ClaimNameIsInjective(app: App, claim: string, ordinal: nat, claim': string, ordinal': nat)
    requires ordinal <= MAX_INT64 && ordinal' <= MAX_INT64
    requires ClaimName(app, claim, ordinal) == ClaimName(app, claim', ordinal')
    ensures claim == claim' && ordinal == ordinal'
  {
    var stem, stem' := claim + "-" + app.name, claim' + "-" + app.name;
    assert ClaimName(app, claim, ordinal) == PodName(stem, ordinal);
    assert ClaimName(app, claim', ordinal') == PodName(stem', ordinal');
    PodNameIsInjective(stem, ordinal, stem', ordinal');
    assert stem[..|claim|] == claim && stem'[..|claim'|] == claim';
  }

  /** The volume a pod mounts under each name; a later volume hides an earlier one. */
  function VolumesByName(volumes: seq<Volume>): (byName: map<string, Volume>)
    ensures forall name :: name in byName <==> exists v <- volumes :: v.name == name
  {
    if volumes == [] then map[]
    else
      var last := volumes[|volumes| - 1];
      var front := volumes[..|volumes| - 1];
      assert volumes == front + [last];
      VolumesByName(front)[last.name := last]
  }

  predicate MountsClaim(app: App, byName: map<string, Volume>, claim: string, ordinal: nat) {
    claim in byName && byName[claim].source == FromClaim(ClaimName(app, claim, ordinal))
  }

  predicate MatchesClaims(app: App, pod: Pod) {
    OrdinalOf(pod) >= 0 &&
    var byName := VolumesByName(pod.volumes);
    forall claim <- app.claims :: MountsClaim(app, byName, claim, OrdinalOf(pod))
  }

  method IndexVolumes(volumes: seq<Volume>) returns (byName: map<string, Volume>)
    ensures byName == VolumesByName(volumes)
  {
    byName := map[];
    for i := 0 to |volumes|
      invariant byName == VolumesByName(volumes[..i])
    {
      assert volumes[..i + 1][..i] == volumes[..i];
      byName := byName[volumes[i].name := volumes[i]];
    }
    assert volumes[..|volumes|] == volumes;
  }

  /** The test as the source runs it: index the volumes in one loop, look up each claim in another. */
  method CheckClaims(app: App, pod: Pod) returns (ok: bool)
    ensures ok == MatchesClaims(app, pod)
  {
    var ordinal := OrdinalOf(pod);
    if ordinal < 0 {
      return false;
    }
    var byName := IndexVolumes(pod.volumes);
    for i := 0 to |app.claims|
      invariant forall j | 0 <= j < i :: MountsClaim(app, byName, app.claims[j], ordinal)
    {
      if !MountsClaim(app, byName, app.claims[i], ordinal) {
        return false;
      }
    }
    return true;
  }

  /** An order in which Go may iterate over the map of claims: each claim name once. */
  ghost predicate IsClaimOrder(app: App, order: seq<string>) {
    && (forall i, j | 0 <= i < j < |order| :: order[i] != order[j])
    && (forall claim :: claim in order <==> claim in app.claims)
  }

  /** The volumes left of the template once the claims have been put in. */
  function Unclaimed(app: App, volumes: seq<Volume>): seq<Volume> {
    if volumes == [] then []
    else
      var last := volumes[|volumes| - 1];
      Unclaimed(app, volumes[..|volumes| - 1]) + (if last.name in app.claims then [] else [last])
  }

  function ClaimVolumes(app: App, ordinal: nat, order: seq<string>): seq<Volume> {
    seq(|order|, i requires 0 <= i < |order| => ClaimVolume(app, order[i], ordinal))
  }

  method UpdateVolumes(app: App, pod: Pod, order: seq<string>) returns (volumes: seq<Volume>)
    requires IsClaimOrder(app, order) && OrdinalOf(pod) >= 0
    ensures volumes == ClaimVolumes(app, OrdinalOf(pod), order) + Unclaimed(app, pod.volumes)
  {
    var ordinal := OrdinalOf(pod);
    volumes := [];
    for i := 0 to |order|
      invariant volumes == ClaimVolumes(app, ordinal, order)[..i]
    {
      volumes := volumes + [ClaimVolume(app, order[i], ordinal)];
    }
    volumes := AppendUnclaimed(app, volumes, pod.volumes);
  }

  method AppendUnclaimed(app: App, claimed: seq<Volume>, current: seq<Volume>) returns (volumes: seq<Volume>)
    ensures volumes == claimed + Unclaimed(app, current)
  {
    volumes := claimed;
    for i := 0 to |current|
      invariant volumes == claimed + Unclaimed(app, current[..i])
    {
      assert current[..i + 1][..i] == current[..i];
      if current[i].name !in app.claims {
        volumes := volumes + [current[i]];
      }
    }
    assert current[..|current|] == current;
  }

  /** A pod as the source stores it when it repairs one: its volumes are put in only if they were there already. */
  function Repaired(app: App, pod: Pod, order: seq<string>): Pod {
    var named := if MatchesApp(app, pod) then pod else WithIdentity(app, pod);
    if MatchesClaims(app, named)
    then named.(volumes := ClaimVolumes(app, OrdinalOf(named), order) + Unclaimed(app, named.volumes))
    else named
  }

  /** The last volume of a name. */
  predicate IsLastOf(volumes: seq<Volume>, i: int, name: string) {
    0 <= i < |volumes| && volumes[i].name == name && forall j | i < j < |volumes| :: volumes[j].name != name
  }

  lemma {:induction false} MountedIsLast(volumes: seq<Volume>, name: string, i: int)
    requires IsLastOf(volumes, i, name)
    ensures name in VolumesByName(volumes) && VolumesByName(volumes)[name] == volumes[i]
  {
    var last := |volumes| - 1;
    if i < last {
      MountedIsLast(volumes[..last], name, i);
    }
  }

  lemma {:induction false} SomeLast(volumes: seq<Volume>, name: string) returns (i: int)
    requires name in VolumesByName(volumes)
    ensures IsLastOf(volumes, i, name)
  {
    i := |volumes| - 1;
    if volumes[i].name != name {
      i := SomeLast(volumes[..i], name);
    }
  }

  /** The last volume of the claim's name mounts the claim that is named after the App and the ordinal. */
  ghost predicate HasClaim(app: App, volumes: seq<Volume>, claim: string, ordinal: nat) {
    exists i :: IsLastOf(volumes, i, claim)
                && volumes[i].source == FromClaim(claim + "-" + app.name + "-" + Itoa(ordinal))
  }

  /** A pod's volumes match if and only if that is so for each claim of its App. */
  lemma MatchesClaimsIff(app: App, pod: Pod, ordinal: nat)
    requires OrdinalOf(pod) == ordinal
    ensures MatchesClaims(app, pod) <==> forall claim <- app.claims :: HasClaim(app, pod.volumes, claim, ordinal)
  {
    forall claim
      ensures MountsClaim(app, VolumesByName(pod.volumes), claim, ordinal) <==>
                HasClaim(app, pod.volumes, claim, ordinal)
    {
      MountIff(app, pod.volumes, claim, ordinal);
    }
  }

  lemma MountIff(app: App, volumes: seq<Volume>, claim: string, ordinal: nat)
    ensures MountsClaim(app, VolumesByName(volumes), claim, ordinal) <==> HasClaim(app, volumes, claim, ordinal)
  {
    if claim in VolumesByName(volumes) {
      var i := SomeLast(volumes, claim);
      MountedIsLast(volumes, claim, i);
    }
    if i :| IsLastOf(volumes, i, claim) && volumes[i].source == FromClaim(ClaimName(app, claim, ordinal)) {
      MountedIsLast(volumes, claim, i);
    }
  }

  // ---- new pods ----

  /** The pod that a template stands for, before it gets a name. */
  function PodFromTemplate(template: Template): Pod {
    Pod("", "", template.labels, Unset, Absent, false, "", "", template.volumes, template.containers, NoMark)
  }

  /** The pod for an ordinal, built from a template, before it is labelled with its revision. */
  function NewPod(app: App, template: Template, ordinal: nat, order: seq<string>): Pod {
    var named := WithIdentity(app, PodFromTemplate(template).(name := PodName(app.name, ordinal)));
    named.(hostname := named.name, subdomain := app.serviceName,
           volumes := ClaimVolumes(app, ordinal, order) + Unclaimed(app, template.volumes))
  }

  lemma MountKept(app: App, volumes: seq<Volume>, last: Volume, claim: string, ordinal: nat)
    ensures VolumesByName(volumes + [last]) == VolumesByName(volumes)[last.name := last]
    ensures last.name != claim && MountsClaim(app, VolumesByName(volumes), claim, ordinal) ==>
              MountsClaim(app, VolumesByName(volumes + [last]), claim, ordinal)
  {
    assert (volumes + [last])[..|volumes|] == volumes;
  }

  lemma {:induction false} ClaimsMounted(app: App, ordinal: nat, order: seq<string>, n: nat, claim: string)
    requires IsClaimOrder(app, order) && n <= |order| && claim in order[..n]
    ensures MountsClaim(app, VolumesByName(ClaimVolumes(app, ordinal, order)[..n]), claim, ordinal)
  {
    var front := ClaimVolumes(app, ordinal, order)[..n - 1];
    assert ClaimVolumes(app, ordinal, order)[..n] == front + [ClaimVolume(app, order[n - 1], ordinal)];
    MountKept(app, front, ClaimVolume(app, order[n - 1], ordinal), claim, ordinal);
    if claim != order[n - 1] {
      ClaimsMounted(app, ordinal, order, n - 1, claim);
    }
  }

  /** No template volume hides a claim's volume, although the claims come first. */
  lemma {:induction false} ClaimsNotHidden(app: App, claimed: seq<Volume>, rest: seq<Volume>, claim: string,
                                           ordinal: nat)
    requires claim in app.claims && MountsClaim(app, VolumesByName(claimed), claim, ordinal)
    ensures MountsClaim(app, VolumesByName(claimed + Unclaimed(app, rest)), claim, ordinal)
  {
    if rest == [] {
      assert claimed + Unclaimed(app, rest) == claimed;
    } else {
      var front, last := rest[..|rest| - 1], rest[|rest| - 1];
      ClaimsNotHidden(app, claimed, front, claim, ordinal);
      if last.name in app.claims {
        assert Unclaimed(app, rest) == Unclaimed(app, front);
      } else {
        assert claimed + Unclaimed(app, rest) == (claimed + Unclaimed(app, front)) + [last];
        MountKept(app, claimed + Unclaimed(app, front), last, claim, ordinal);
      }
    }
  }

  /** A freshly built pod needs no repair, whatever the template and the order of the claims. */
  lemma NewPodMatches(app: App, template: Template, ordinal: nat, order: seq<string>)
    requires ordinal <= MAX_INT64 && IsClaimOrder(app, order)
    ensures var pod := NewPod(app, template, ordinal, order);
            && ParsePodName(pod.name) == (app.name, ordinal)
            && MatchesApp(app, pod) && MatchesClaims(app, pod)
  {
    ParsePrintedName(app.name, ordinal);
    forall claim <- app.claims
      ensures MountsClaim(app, VolumesByName(NewPod(app, template, ordinal, order).volumes), claim, ordinal)
    {
      var claimed := ClaimVolumes(app, ordinal, order);
      ClaimsMounted(app, ordinal, order, |order|, claim);
      assert claimed[..|order|] == claimed;
      ClaimsNotHidden(app, claimed, template.volumes, claim, ordinal);
    }
  }

  /** Every template volume that no claim replaces stays, in its place in the order. */
  lemma {:induction false} TemplateVolumesKept(app: App, volumes: seq<Volume>, i: nat, j: nat)
    requires i < j < |volumes| && volumes[i].name !in app.claims && volumes[j].name !in app.claims
    ensures exists a, b :: 0 <= a < b < |Unclaimed(app, volumes)| &&
                           Unclaimed(app, volumes)[a] == volumes[i] && Unclaimed(app, volumes)[b] == volumes[j]
  {
    var n := |volumes| - 1;
    var front := Unclaimed(app, volumes[..n]);
    if j == n {
      UnclaimedKeeps(app, volumes[..n], i);
      var a :| 0 <= a < |front| && front[a] == volumes[..n][i];
      assert a < |front| < |Unclaimed(app, volumes)|;
      assert Unclaimed(app, volumes)[a] == volumes[i] && Unclaimed(app, volumes)[|front|] == volumes[j];
    } else {
      TemplateVolumesKept(app, volumes[..n], i, j);
      var a, b :| 0 <= a < b < |front| && front[a] == volumes[..n][i] && front[b] == volumes[..n][j];
      assert Unclaimed(app, volumes)[a] == volumes[i] && Unclaimed(app, volumes)[b] == volumes[j];
    }
  }

  lemma {:induction false} UnclaimedKeeps(app: App, volumes: seq<Volume>, i: nat)
    requires i < |volumes| && volumes[i].name !in app.claims
    ensures volumes[i] in Unclaimed(app, volumes)
  {
    if i < |volumes| - 1 {
      UnclaimedKeeps(app, volumes[..|volumes| - 1], i);
    }
  }
}
