/** Updating a pod in place: the JSON patch between two templates is taken apart into images by container name. */
module InPlace {
  import opened Text
  import opened Kube
  import opened Slots
  import Runs

  // where the template is within a revision's data, and an image within a template
  const ROOT := "/spec/template"
  const IMAGE_PREFIX := "/spec/containers/"
  const IMAGE_SUFFIX := "/image"

  /** One operation of a JSON patch, with a text for its value. */
  datatype Op = Op(operation: string, path: string, value: string)

  type Images = map<string, string>

  // ---- which operations are accepted ----

  predicate StartsWith(s: string, start: string) {
    |s| >= |start| && s[..|start|] == start
  }

  /** strings.Replace(s, cut, "", 1) */
  function CutFirst(s: string, cut: string): string
    requires cut != ""
  {
    if |s| < |cut| then s
    else if s[..|cut|] == cut then s[|cut|..]
    else [s[0]] + CutFirst(s[1..], cut)
  }

  /** The expression ^/spec/containers/([0-9]+)/image$ */
  predicate IsImagePath(path: string) {
    && |path| > |IMAGE_PREFIX| + |IMAGE_SUFFIX|
    && path[..|IMAGE_PREFIX|] == IMAGE_PREFIX && path[|path| - |IMAGE_SUFFIX|..] == IMAGE_SUFFIX
    && AllDigits(IndexText(path))
  }

  function IndexText(path: string): string
    requires |path| > |IMAGE_PREFIX| + |IMAGE_SUFFIX|
  {
    path[|IMAGE_PREFIX|..|path| - |IMAGE_SUFFIX|]
  }

  lemma SplitFive(a: string, b: string, c: string, d: string, e: string, sep: char)
    requires sep !in a && sep !in b && sep !in c && sep !in d && sep !in e
    ensures Split(a + [sep] + b + [sep] + c + [sep] + d + [sep] + e, sep) == [a, b, c, d, e]
  {
    SplitSingle(a, sep);
    SplitLast(a, b, sep);
    SplitLast(a + [sep] + b, c, sep);
    SplitLast(a + [sep] + b + [sep] + c, d, sep);
    SplitLast(a + [sep] + b + [sep] + c + [sep] + d, e, sep);
  }

  /** The fourth part of the path is what the expression matched as the index. */
  lemma FourthPart(path: string)
    requires IsImagePath(path)
    ensures |Split(path, '/')| == 5 && Split(path, '/')[3] == IndexText(path)
  {
    var digits := IndexText(path);
    assert '/' !in digits by {
      assert forall i | 0 <= i < |digits| :: IsDigit(digits[i]);
    }
    var root, spec, containers, image := "", "spec", "containers", "image";
    assert '/' !in spec && '/' !in containers && '/' !in image;
    assert path == root + ['/'] + spec + ['/'] + containers + ['/'] + digits + ['/'] + image by {
      assert IMAGE_PREFIX == root + ['/'] + spec + ['/'] + containers + ['/'];
      assert IMAGE_SUFFIX == ['/'] + image;
    }
    SplitFive(root, spec, containers, digits, image, '/');
  }

  /** The container that an operation gives a new image, unless the operation rules an in-place update out. */
  function Target(from: Template, op: Op): Option<nat> {
    var path := CutFirst(op.path, ROOT);
    if op.operation != "replace" || !IsImagePath(path) then None
    else
      FourthPart(path);
      // strconv.Atoi saturates where it reports an error
      var parsed := Atoi(Split(path, '/')[3]);
      var index := if parsed.Some? then parsed.value else MAX_INT64;
      assert IsDigit(IndexText(path)[0]);
      if |from.containers| <= index then None else Some(index)
  }

  /** The new images by container name, unless some operation is not accepted. */
  function ImagesOf(from: Template, ops: seq<Op>): Option<Images> {
    if ops == [] then Some(map[])
    else
      var last := ops[|ops| - 1];
      match (ImagesOf(from, ops[..|ops| - 1]), Target(from, last))
      case (Some(images), Some(i)) => Some(images[from.containers[i].name := last.value])
      case _ => None
  }

  function Rewritten(containers: seq<Container>, images: Images): seq<Container> {
    seq(|containers|, i requires 0 <= i < |containers| =>
      if containers[i].name in images then containers[i].(image := images[containers[i].name]) else containers[i])
  }

  method CollectImages(from: Template, ops: seq<Op>) returns (images: Option<Images>)
    ensures images == ImagesOf(from, ops)
  {
    var newImage := map[];
    for n := 0 to |ops|
      invariant ImagesOf(from, ops[..n]) == Some(newImage)
    {
      assert ops[..n + 1][..n] == ops[..n];
      var target := Target(from, ops[n]);
      if target.None? {
        RefusalStands(from, ops, n + 1);
        return None;
      }
      newImage := newImage[from.containers[target.value].name := ops[n].value];
    }
    assert ops[..|ops|] == ops;
    return Some(newImage);
  }

  lemma {:induction false} RefusalStands(from: Template, ops: seq<Op>, n: nat)
    requires n <= |ops| && ImagesOf(from, ops[..n]).None?
    ensures ImagesOf(from, ops).None?
  {
    if n < |ops| {
      assert ops[..|ops| - 1][..n] == ops[..n];
      RefusalStands(from, ops[..|ops| - 1], n);
    } else {
      assert ops[..n] == ops;
    }
  }

  /** The containers of the copied pod are changed where they stand. */
  method RewriteImages(containers: array<Container>, images: Images)
    modifies containers
    ensures containers[..] == Rewritten(old(containers[..]), images)
  {
    for i := 0 to containers.Length
      invariant forall k | 0 <= k < i :: containers[k] == Rewritten(old(containers[..]), images)[k]
      invariant forall k | i <= k < containers.Length :: containers[k] == old(containers[k])
    {
      var name := containers[i].name;
      if name in images {
        containers[i] := containers[i].(image := images[name]);
      }
    }
  }

  /** One operation out of place is enough to refuse; otherwise every operation replaces an image. */
  lemma {:induction false} AcceptedIffAllAre(from: Template, ops: seq<Op>)
    ensures ImagesOf(from, ops).Some? <==> forall op <- ops :: Target(from, op).Some?
  {
    if ops != [] {
      var front, last := ops[..|ops| - 1], ops[|ops| - 1];
      assert ops == front + [last];
      AcceptedIffAllAre(from, front);
    }
  }

  // ---- what the operations mean ----

  /** What an operation does other than to replace an image: anything at all, or it cannot be applied. */
  type Elsewhere = (Template, Op) -> Option<Template>

  predicate IsCanonical(digits: string) {
    digits != "" && AllDigits(digits) && digits == Itoa(DigitsValue(digits))
  }

  /**
    Applying an operation to the data of a revision, whose only content is a template below ROOT. An index
    has no leading zeros, and a value can be replaced only where there is one.
   */
  function ApplyOp(t: Template, op: Op, elsewhere: Elsewhere): Option<Template> {
    if op.operation != "replace" then elsewhere(t, op)
    else if StartsWith(op.path, ROOT) then
      var path := op.path[|ROOT|..];
      if !IsImagePath(path) then elsewhere(t, op)
      else
        var digits := IndexText(path);
        var i := DigitsValue(digits);
        if IsCanonical(digits) && i < |t.containers| then
          Some(t.(containers := t.containers[i := t.containers[i].(image := op.value)]))
        else None
    else if op.path == "" || op.path == "/spec" then elsewhere(t, op)
    else None
  }

  function Apply(t: Template, ops: seq<Op>, elsewhere: Elsewhere): Option<Template> {
    if ops == [] then Some(t)
    else
      match Apply(t, ops[..|ops| - 1], elsewhere)
      case Some(before) => ApplyOp(before, ops[|ops| - 1], elsewhere)
      case None => None
  }

  ghost predicate DistinctNames(containers: seq<Container>) {
    forall i, j | 0 <= i < j < |containers| :: containers[i].name != containers[j].name
  }

  lemma {:induction false} CutAtStart(s: string, cut: string)
    requires cut != ""
    ensures StartsWith(s, cut) ==> CutFirst(s, cut) == s[|cut|..]
    ensures |CutFirst(s, cut)| <= |s|
  {
    if |s| >= |cut| && s[..|cut|] != cut {
      CutAtStart(s[1..], cut);
    }
  }

  /** An accepted operation that can be applied replaces the image that it is taken to replace. */
  lemma AcceptedMeansReplaced(from: Template, t: Template, op: Op, elsewhere: Elsewhere)
    requires Target(from, op).Some? && ApplyOp(t, op, elsewhere).Some?
    requires |t.containers| == |from.containers| <= MAX_INT64
    ensures
      var i := Target(from, op).value;
      && i < |from.containers|
      && ApplyOp(t, op, elsewhere)
      == Some(t.(containers := t.containers[i := t.containers[i].(image := op.value)]))
  {
    var path := CutFirst(op.path, ROOT);
    CutAtStart(op.path, ROOT);
    FourthPart(path);
    assert StartsWith(op.path, ROOT);
    assert IsDigit(IndexText(path)[0]);
  }

  /** The operation that changes one image is accepted, for the container that it is about, and can be applied. */
  lemma ImageChangeIsAccepted(from: Template, i: nat, image: string, elsewhere: Elsewhere)
    requires i < |from.containers| && i <= MAX_INT64
    ensures
      var op := Op("replace", ROOT + (IMAGE_PREFIX + Itoa(i) + IMAGE_SUFFIX), image);
      && Target(from, op) == Some(i)
      && ApplyOp(from, op, elsewhere)
      == Some(from.(containers := from.containers[i := from.containers[i].(image := image)]))
  {
    var digits := Itoa(i);
    var path := IMAGE_PREFIX + digits + IMAGE_SUFFIX;
    CutAtStart(ROOT + path, ROOT);
    assert (ROOT + path)[..|ROOT|] == ROOT && (ROOT + path)[|ROOT|..] == path;
    assert IndexText(path) == digits && IsImagePath(path) by {
      assert path[..|IMAGE_PREFIX|] == IMAGE_PREFIX && path[|path| - |IMAGE_SUFFIX|..] == IMAGE_SUFFIX;
    }
    FourthPart(path);
    AtoiItoa(i);
  }

  lemma RewrittenOnce(containers: seq<Container>, images: Images, i: nat, image: string)
    requires DistinctNames(containers) && i < |containers|
    ensures
      var before := Rewritten(containers, images);
      before[i := before[i].(image := image)] == Rewritten(containers, images[containers[i].name := image])
  {
  }

  /**
    Updating in place comes to the same as the patch itself: if every operation is accepted and together
    they turn the old template into the new one, then rewriting images by name gives exactly the containers
    of the new template, and nothing but containers differs between the two.
   */
  lemma {:induction false} RewritingIsPatching(from: Template, ops: seq<Op>, elsewhere: Elsewhere)
    requires DistinctNames(from.containers) && |from.containers| <= MAX_INT64
    requires ImagesOf(from, ops).Some? && Apply(from, ops, elsewhere).Some?
    ensures Apply(from, ops, elsewhere)
         == Some(from.(containers := Rewritten(from.containers, ImagesOf(from, ops).value)))
  {
    if ops == [] {
      assert Rewritten(from.containers, map[]) == from.containers;
    } else {
      var front, last := ops[..|ops| - 1], ops[|ops| - 1];
      RewritingIsPatching(from, front, elsewhere);
      var before := Apply(from, front, elsewhere).value;
      AcceptedMeansReplaced(from, before, last, elsewhere);
      RewrittenOnce(from.containers, ImagesOf(from, front).value, Target(from, last).value, last.value);
    }
  }

  /** A pod that still is as the old revision made it ends up with the containers of a pod made anew. */
  lemma InPlaceEqualsRecreate(
    app: App, from: Revision, to: Revision, ordinal: nat, order: ClaimOrder, ops: seq<Op>, elsewhere: Elsewhere)
    requires DistinctNames(from.data.containers) && |from.data.containers| <= MAX_INT64
    requires ImagesOf(from.data, ops).Some? && Apply(from.data, ops, elsewhere) == Some(to.data)
    ensures
      Rewritten(PodBuilder(app, order)(from, ordinal).containers, ImagesOf(from.data, ops).value)
      == PodBuilder(app, order)(to, ordinal).containers
    ensures to.data == from.data.(containers := to.data.containers)
  {
    RewritingIsPatching(from.data, ops, elsewhere);
  }

  // ---- one attempt ----

  /** What an in-place update reads and writes of a stored pod; started is in whole seconds. */
  datatype Part = Part(
    revision: string, containers: seq<Container>, gated: bool, flagged: bool, started: Option<int>)

  /** The patch between two templates, unless the library fails. */
  type Diff = (Template, Template) -> Option<seq<Op>>

  datatype Attempt = Attempt(
    revisions: seq<Revision>, to: Revision, statusRevision: string, grace: int, now: int, fails: bool)

  datatype Outcome = Refused | Erred | Flagged | Waiting(seconds: int) | Updated

  function Find(revisions: seq<Revision>, name: string): Option<Revision> {
    if revisions == [] then None
    else if revisions[0].name == name then Some(revisions[0])
    else Find(revisions[1..], name)
  }

  /** The images to put in, unless the pod has to be made anew. */
  function Plan(a: Attempt, part: Part, diff: Diff): Option<Images> {
    match Find(a.revisions, part.revision)
    case None => None
    case Some(from) =>
      match diff(from.data, a.to.data)
      case None => None
      case Some(ops) => ImagesOf(from.data, ops)
  }

  function Remaining(a: Attempt, part: Part): int {
    if part.started.None? then a.grace else (part.started.value * SECOND + a.grace * SECOND - a.now) / SECOND
  }

  function Decide(a: Attempt, part: Part, diff: Diff): (Outcome, Part) {
    var plan := Plan(a, part, diff);
    if plan.None? then (Refused, part)
    else if part.gated && !part.flagged then
      if a.fails then (Erred, part) else (Flagged, part.(flagged := true))
    else if a.grace > 0 && part.started.None? && a.fails then (Erred, part)
    else if a.grace > 0 && Remaining(a, part) > 0 then
      (Waiting(Remaining(a, part) + Remaining(a, part) % 2),
       if part.started.None? then part.(started := Some(a.now / SECOND)) else part)
    else if a.fails then (Erred, part)
    else (Updated, part.(revision := a.statusRevision, containers := Rewritten(part.containers, plan.value),
                         started := Some(a.now / SECOND)))
  }

  class InPlaceUpdater {
    var part: Part

    constructor (part: Part)
      ensures this.part == part
    {
      this.part := part;
    }

    method FindOld(revisions: seq<Revision>) returns (found: Option<Revision>)
      ensures found == Find(revisions, part.revision)
    {
      for i := 0 to |revisions|
        invariant Find(revisions, part.revision) == Find(revisions[i..], part.revision)
      {
        assert revisions[i..][0] == revisions[i] && revisions[i..][1..] == revisions[i + 1..];
        if revisions[i].name == part.revision {
          return Some(revisions[i]);
        }
      }
      return None;
    }

    method InPlaceUpdatePod(a: Attempt, diff: Diff) returns (outcome: Outcome)
      modifies this
      ensures (outcome, part) == Decide(a, old(part), diff)
    {
      var from := FindOld(a.revisions);
      if from.None? {
        return Refused;
      }
      var ops := diff(from.value.data, a.to.data);
      if ops.None? {
        return Refused;
      }
      var images := CollectImages(from.value.data, ops.value);
      if images.None? {
        return Refused;
      }
      if part.gated && !part.flagged {
        if a.fails {
          return Erred;
        }
        part := part.(flagged := true);
        return Flagged;
      }
      if a.grace > 0 {
        var wait := Remaining(a, part);
        if part.started.None? {
          if a.fails {
            return Erred;
          }
          part := part.(started := Some(a.now / SECOND));
        }
        if wait > 0 {
          return Waiting(wait + wait % 2);
        }
      }
      if a.fails {
        return Erred;
      }
      var current := part.containers;
      var containers := new Container[|current|](i requires 0 <= i < |current| => current[i]);
      assert containers[..] == part.containers;
      RewriteImages(containers, images.value);
      part := part.(revision := a.statusRevision, containers := containers[..], started := Some(a.now / SECOND));
      return Updated;
    }
  }

  /** An attempt is given up exactly when some operation is not accepted, or none are known; the pod stays as it is. */
  lemma RefusedIff(a: Attempt, part: Part, diff: Diff)
    ensures
      var from := Find(a.revisions, part.revision);
      Decide(a, part, diff).0.Refused? <==>
        || from.None? || diff(from.value.data, a.to.data).None?
        || exists op <- diff(from.value.data, a.to.data).value :: Target(from.value.data, op).None?
    ensures Decide(a, part, diff).0.Refused? ==> Decide(a, part, diff).1 == part
  {
    var from := Find(a.revisions, part.revision);
    if from.Some? && diff(from.value.data, a.to.data).Some? {
      AcceptedIffAllAre(from.value.data, diff(from.value.data, a.to.data).value);
    }
  }

  /** The pod has a readiness gate and has not been taken out of service yet. */
  predicate IsInService(part: Part) {
    part.gated && !part.flagged
  }

  /** The grace, counted from the mark, is not over but for a second. */
  predicate IsEarly(a: Attempt, part: Part) {
    part.started.Some? && a.now <= (part.started.value + a.grace - 1) * SECOND
  }

  /**
    What one attempt with a plan does: it takes a gated pod out of service, and goes no further; or it notes the start
    of the grace and waits; or it goes on waiting; or it puts the images in. Only the first, second and last need a
    request, and it fails exactly when that does.
   */
  lemma AttemptDoes(a: Attempt, part: Part, diff: Diff)
    requires Plan(a, part, diff).Some?
    ensures
      var (outcome, part') := Decide(a, part, diff);
      var early := a.grace > 0 && IsEarly(a, part);
      var starts := a.grace > 0 && part.started.None?;
      && (outcome.Erred? <==> a.fails && (IsInService(part) || !early))
      && (outcome.Flagged? <==> !a.fails && IsInService(part))
      && (outcome.Waiting? <==> !IsInService(part) && (early || (starts && !a.fails)))
      && (outcome.Flagged? ==> part' == part.(flagged := true))
      && (outcome.Waiting? ==> part' == if starts then part.(started := Some(a.now / SECOND)) else part)
      && (outcome.Updated? ==>
            part' == part.(revision := a.statusRevision, containers := part'.containers,
                           started := Some(a.now / SECOND)))
      && (outcome.Erred? ==> part' == part)
  {}

  /** The wait is what is left of the grace, in whole seconds, rounded up to an even number. */
  lemma WaitIsTheRest(a: Attempt, part: Part, diff: Diff)
    requires Decide(a, part, diff).0.Waiting?
    ensures
      var seconds := Decide(a, part, diff).0.seconds;
      var left := (if part.started.Some? then part.started.value * SECOND - a.now else 0) + a.grace * SECOND;
      seconds > 0 && seconds % 2 == 0 && left - SECOND < seconds * SECOND <= left + SECOND
  {}

  /** The wait that is asked for is long enough: the next attempt after it does not wait again. */
  lemma WaitingEnds(a: Attempt, part: Part, diff: Diff, later: Attempt)
    requires Decide(a, part, diff).0.Waiting?
    requires later == a.(now := a.now + Decide(a, part, diff).0.seconds * SECOND, fails := false)
    ensures Decide(later, Decide(a, part, diff).1, diff).0.Updated?
    ensures Decide(a, part, diff).0.seconds % 2 == 0
  {
    var seconds, next := Decide(a, part, diff).0.seconds, Decide(a, part, diff).1;
    if part.started.None? {
      assert Remaining(later, next) <= 0 by {
        assert next.started.value * SECOND + a.grace * SECOND - later.now
            == next.started.value * SECOND - a.now + (a.grace - seconds) * SECOND <= 0;
      }
    } else {
      var left := part.started.value * SECOND + a.grace * SECOND - a.now;
      LaterBy(left, seconds);
    }
  }

  lemma LaterBy(left: int, seconds: int)
    ensures (left - seconds * SECOND) / SECOND == left / SECOND - seconds
  {
  }

  // ---- what attempts keep ----

  /** What each revision name has ever stood for: names are not used twice. */
  type Book = map<string, Template>

  ghost predicate Records(book: Book, revisions: seq<Revision>) {
    forall r <- revisions :: r.name in book && book[r.name] == r.data
  }

  /** The pod's containers are those of the revision that its label names, if it names one. */
  predicate Tracks(book: Book, part: Part) {
    part.revision in book ==> part.containers == book[part.revision].containers
  }

  /** The status names a revision with the same containers as the one the update is for, or none at all. */
  predicate LabelFits(book: Book, a: Attempt) {
    a.statusRevision in book ==> book[a.statusRevision].containers == a.to.data.containers
  }

  ghost predicate AreSound(revisions: seq<Revision>) {
    forall r <- revisions :: DistinctNames(r.data.containers) && |r.data.containers| <= MAX_INT64
  }

  /** The library's promise: a patch turns the one template into the other. */
  ghost predicate IsDiff(diff: Diff, elsewhere: Elsewhere) {
    forall from, to :: diff(from, to).Some? ==> Apply(from, diff(from, to).value, elsewhere) == Some(to)
  }

  lemma {:induction false} Found(revisions: seq<Revision>, name: string)
    ensures Find(revisions, name).Some? ==>
              Find(revisions, name).value in revisions && Find(revisions, name).value.name == name
  {
    if revisions != [] {
      Found(revisions[1..], name);
    }
  }

  /** An update puts in the containers of the revision it is for, whatever it writes on the label. */
  lemma UpdatedMeansNew(book: Book, a: Attempt, part: Part, diff: Diff, elsewhere: Elsewhere)
    requires IsDiff(diff, elsewhere) && AreSound(a.revisions) && Records(book, a.revisions) && Tracks(book, part)
    requires Decide(a, part, diff).0.Updated?
    ensures Decide(a, part, diff).1.containers == a.to.data.containers
  {
    var from := Find(a.revisions, part.revision).value;
    Found(a.revisions, part.revision);
    RewritingIsPatching(from.data, diff(from.data, a.to.data).value, elsewhere);
  }

  /** The label is taken from the status, so after an update it is right if and only if the status fits. */
  lemma LabelIsRightIff(book: Book, a: Attempt, part: Part, diff: Diff, elsewhere: Elsewhere)
    requires IsDiff(diff, elsewhere) && AreSound(a.revisions) && Records(book, a.revisions) && Tracks(book, part)
    requires Decide(a, part, diff).0.Updated?
    ensures Tracks(book, Decide(a, part, diff).1) <==> LabelFits(book, a)
  {
    UpdatedMeansNew(book, a, part, diff, elsewhere);
  }

  /**
    A pod that ends up with the wrong label: the image of one of its containers is changed by an attempt made
    while the status still names the revision before, as it does in the first reconcile after a template change.
   */
  lemma Mislabelled(from: Revision, to: Revision, i: nat, image: string)
    returns (book: Book, a: Attempt, part: Part, diff: Diff, elsewhere: Elsewhere)
    requires i < |from.data.containers| <= MAX_INT64 && DistinctNames(from.data.containers)
    requires image != from.data.containers[i].image && from.name != to.name
    requires to.data == from.data.(containers := from.data.containers[i := from.data.containers[i].(image := image)])
    ensures IsDiff(diff, elsewhere) && a.revisions == [from, to] && a.to == to && a.statusRevision == from.name
    ensures AreSound(a.revisions) && Records(book, a.revisions) && Tracks(book, part)
    ensures Decide(a, part, diff).0.Updated? && !Tracks(book, Decide(a, part, diff).1)
  {
    var op := Op("replace", ROOT + (IMAGE_PREFIX + Itoa(i) + IMAGE_SUFFIX), image);
    elsewhere := (_, _) => None;
    diff := (t: Template, u: Template) => if t == from.data && u == to.data then Some([op]) else None;
    book := map[from.name := from.data, to.name := to.data];
    a := Attempt([from, to], to, from.name, 0, 0, false);
    part := Part(from.name, from.data.containers, false, false, None);
    ImageChangeIsAccepted(from.data, i, image, elsewhere);
    OneChange(from.data, to.data, op, elsewhere);
    assert DistinctNames(to.data.containers);
    assert to.data.containers[i].image == image;
    LabelIsRightIff(book, a, part, diff, elsewhere);
  }

  lemma OneChange(from: Template, to: Template, op: Op, elsewhere: Elsewhere)
    requires Target(from, op).Some? && ApplyOp(from, op, elsewhere) == Some(to)
    ensures Apply(from, [op], elsewhere) == Some(to) && ImagesOf(from, [op]).Some?
  {
    assert [op][..0] == [];
  }

  // ---- visits: the rolling loop tries to update a pod, or cleans up after an update ----

  datatype Visit = Try(a: Attempt) | CleanUp(update: string)

  /**
    An attempt is made for an outdated pod. One that is up to date, and still carries a mark and a condition that
    is not true, is cleaned up once its containers are found rebuilt.
   */
  ghost predicate VisitStep(diff: Diff, part: Part, v: Visit, part': Part) {
    match v
    case Try(a) => part.revision != a.to.name && part' == Decide(a, part, diff).1
    case CleanUp(update) =>
      && part.revision == update && part.started.Some? && part.flagged
      && part' == part.(flagged := false, started := None)
  }

  ghost function VisitsOf(diff: Diff): (Part, Visit, Part) -> bool {
    (part, v, part') => VisitStep(diff, part, v, part')
  }

  ghost predicate IsRun(visits: seq<Visit>, parts: seq<Part>, diff: Diff) {
    Runs.IsRunOf(VisitsOf(diff), parts, visits)
  }

  /** The i-th visit puts new images in. */
  predicate Updates(visits: seq<Visit>, parts: seq<Part>, diff: Diff, i: nat)
    requires i < |visits| && i < |parts|
  {
    visits[i].Try? && Decide(visits[i].a, parts[i], diff).0.Updated?
  }

  /**
    Over any number of in-place updates, with histories that grow and shrink between them, the pod stays what
    its label says, as long as the status fits whenever an attempt updates it.
   */
  lemma {:induction false} RunTracks(
    book: Book, visits: seq<Visit>, parts: seq<Part>, diff: Diff, elsewhere: Elsewhere)
    requires IsRun(visits, parts, diff) && IsDiff(diff, elsewhere) && Tracks(book, parts[0])
    requires forall v <- visits | v.Try? :: AreSound(v.a.revisions) && Records(book, v.a.revisions)
    requires forall i | 0 <= i < |visits| :: Updates(visits, parts, diff, i) ==> LabelFits(book, visits[i].a)
    ensures Tracks(book, parts[|visits|])
  {
    if visits != [] {
      var last := |visits| - 1;
      var front, frontParts := visits[..last], parts[..last + 1];
      assert forall i | 0 <= i < last :: Updates(front, frontParts, diff, i) == Updates(visits, parts, diff, i);
      RunTracks(book, front, frontParts, diff, elsewhere);
      assert VisitsOf(diff)(parts[last], visits[last], parts[last + 1]);
      assert visits[last] in visits;
      if Updates(visits, parts, diff, last) {
        LabelIsRightIff(book, visits[last].a, parts[last], diff, elsewhere);
      }
    }
  }

  // ---- the grace period ----

  /** When a pod that is out of service, if it has a gate, gets its new images: the grace period is all but over. */
  lemma UpdatedIff(a: Attempt, part: Part, diff: Diff)
    requires Plan(a, part, diff).Some? && (part.gated ==> part.flagged) && a.grace > 0 && !a.fails
    ensures Decide(a, part, diff).0.Updated?
       <==> part.started.Some? && a.now > (part.started.value + a.grace - 1) * SECOND
  {}

  /** One update: attempts for one revision, of which the last puts the images in. */
  ghost predicate IsUpdate(visits: seq<Visit>, parts: seq<Part>, diff: Diff, m: nat, n: nat) {
    && m <= n < |visits| && n < |parts| && visits[n].Try?
    && (forall i | m <= i <= n :: visits[i].Try? && visits[i].a.to.name == visits[n].a.to.name)
    && (forall i | m <= i < n :: !Updates(visits, parts, diff, i)) && Updates(visits, parts, diff, n)
  }

  /** The i-th visit notes its own time as the start of a grace period. */
  predicate NotesStart(visits: seq<Visit>, parts: seq<Part>, i: nat)
    requires i < |visits| && i + 1 < |parts|
  {
    visits[i].Try? && parts[i].started.None? && parts[i + 1].started == Some(visits[i].a.now / SECOND)
  }

  /** The i-th visit takes a gated pod out of service. */
  predicate TakesOut(parts: seq<Part>, i: nat)
    requires i + 1 < |parts|
  {
    parts[i].gated && !parts[i].flagged && parts[i + 1].flagged
  }

  /** What an update has done before its n-th visit, if nothing was there when it began, or if something was. */
  lemma {:induction false} SoFar(visits: seq<Visit>, parts: seq<Part>, diff: Diff, m: nat, n: nat)
    requires IsRun(visits, parts, diff) && m <= n <= |visits|
    requires forall i | m <= i < n :: visits[i].Try? && !Updates(visits, parts, diff, i)
    ensures parts[n].gated == parts[m].gated
    ensures parts[m].started.Some? ==> parts[n].started == parts[m].started
    ensures parts[m].started.None? && parts[n].started.Some? ==>
              exists j | m <= j < n ::
                NotesStart(visits, parts, j) && parts[n].started == Some(visits[j].a.now / SECOND)
    ensures parts[m].flagged ==> parts[n].flagged
    ensures !parts[m].flagged && parts[n].flagged ==> exists j | m <= j < n :: TakesOut(parts, j)
  {
    if m < n {
      SoFar(visits, parts, diff, m, n - 1);
      var a, part := visits[n - 1].a, parts[n - 1];
      assert VisitsOf(diff)(part, visits[n - 1], parts[n]);
      assert !Updates(visits, parts, diff, n - 1);
      if part.started.None? && parts[n].started.Some? {
        assert NotesStart(visits, parts, n - 1);
      }
      if !part.flagged && parts[n].flagged {
        assert TakesOut(parts, n - 1);
      }
    }
  }

  /** No attempt of an update notes the start again, or takes the pod out again. */
  lemma NotAgain(visits: seq<Visit>, parts: seq<Part>, diff: Diff, m: nat, j: nat)
    requires IsRun(visits, parts, diff) && m <= j < |visits|
    requires forall i | m <= i <= j :: visits[i].Try? && !Updates(visits, parts, diff, i)
    ensures parts[m].started.Some? ==> !NotesStart(visits, parts, j)
    ensures parts[m].flagged ==> !TakesOut(parts, j)
  {
    SoFar(visits, parts, diff, m, j);
  }

  /**
    The grace period of an update is counted from an attempt of the same update if and only if no mark was there
    when the update began. A mark that was there is the one that counts. The same goes for taking a gated pod out
    of service.
   */
  lemma GraceOfUpdate(visits: seq<Visit>, parts: seq<Part>, diff: Diff, m: nat, n: nat)
    requires IsRun(visits, parts, diff) && IsUpdate(visits, parts, diff, m, n) && visits[n].a.grace > 0
    ensures parts[m].started.None? <==> exists j | m <= j < n :: NotesStart(visits, parts, j)
    ensures
      var a := visits[n].a;
      if parts[m].started.Some? then a.now > (parts[m].started.value + a.grace - 1) * SECOND
      else exists j | m <= j < n :: NotesStart(visits, parts, j) && a.now > visits[j].a.now + (a.grace - 2) * SECOND
    ensures parts[m].gated && !parts[m].flagged <==> exists j | m <= j < n :: TakesOut(parts, j)
  {
    SoFar(visits, parts, diff, m, n);
    assert Updates(visits, parts, diff, n);
    UpdatedIff(visits[n].a, parts[n], diff);
    forall j | m <= j < n
      ensures parts[m].started.Some? ==> !NotesStart(visits, parts, j)
      ensures parts[m].flagged || !parts[m].gated ==> !TakesOut(parts, j)
    {
      NotAgain(visits, parts, diff, m, j);
      SoFar(visits, parts, diff, m, j);
    }
    if parts[m].started.None? {
      var j :| m <= j < n && NotesStart(visits, parts, j) && parts[n].started == Some(visits[j].a.now / SECOND);
      assert visits[n].a.now > visits[j].a.now + (visits[n].a.grace - 2) * SECOND;
    }
  }

  /** An update leaves a mark, and it is there when the next one begins unless the pod was cleaned up between. */
  lemma MarkIsLeft(visits: seq<Visit>, parts: seq<Part>, diff: Diff, i: nat, m: nat)
    requires IsRun(visits, parts, diff) && i < m <= |visits| && Updates(visits, parts, diff, i)
    requires forall k | i < k < m :: visits[k].CleanUp?
    ensures parts[m].started.None? <==> i + 1 < m
  {
    assert VisitsOf(diff)(parts[i], visits[i], parts[i + 1]);
    if i + 1 < m {
      assert VisitsOf(diff)(parts[m - 1], visits[m - 1], parts[m]);
    }
  }

  /** A pod without a gate is never cleaned up, so every update but its first begins with a mark. */
  lemma {:induction false} UngatedIsNeverCleaned(visits: seq<Visit>, parts: seq<Part>, diff: Diff, i: nat, m: nat)
    requires IsRun(visits, parts, diff) && !parts[0].gated && !parts[0].flagged
    requires i < m <= |visits| && Updates(visits, parts, diff, i)
    ensures parts[m].started.Some?
    decreases m
  {
    UngatedIsNeverFlagged(visits, parts, diff, m - 1);
    assert VisitsOf(diff)(parts[m - 1], visits[m - 1], parts[m]);
    if i < m - 1 {
      UngatedIsNeverCleaned(visits, parts, diff, i, m - 1);
    }
  }

  lemma {:induction false} UngatedIsNeverFlagged(visits: seq<Visit>, parts: seq<Part>, diff: Diff, m: nat)
    requires IsRun(visits, parts, diff) && !parts[0].gated && !parts[0].flagged && m <= |visits|
    ensures !parts[m].gated && !parts[m].flagged
  {
    if m > 0 {
      UngatedIsNeverFlagged(visits, parts, diff, m - 1);
      assert VisitsOf(diff)(parts[m - 1], visits[m - 1], parts[m]);
    }
  }

  /** The images of one container in three revisions. */
  ghost predicate ThreeImages(a: Revision, b: Revision, c: Revision, i: nat, imageB: string, imageC: string) {
    && i < |a.data.containers| <= MAX_INT64 && DistinctNames(a.data.containers)
    && a.name != b.name && b.name != c.name && a.name != c.name && a.data != b.data
    && b.data == WithImage(a.data, i, imageB) && c.data == WithImage(b.data, i, imageC)
  }

  function WithImage(t: Template, i: nat, image: string): Template
    requires i < |t.containers|
  {
    t.(containers := t.containers[i := t.containers[i].(image := image)])
  }

  /**
    The grace period that is not given: a pod without a gate is updated twice, each time with the same grace. The
    first update waits for it. The second one puts the images in at its first attempt.
   */
  lemma SecondUpdateAtOnce(a: Revision, b: Revision, c: Revision, i: nat, imageB: string, imageC: string, grace: nat)
    returns (visits: seq<Visit>, parts: seq<Part>, diff: Diff, elsewhere: Elsewhere)
    requires ThreeImages(a, b, c, i, imageB, imageC) && grace > 0
    ensures IsRun(visits, parts, diff) && IsDiff(diff, elsewhere) && |visits| == 3
    ensures !parts[0].gated && !parts[0].flagged && parts[0].started.None? && parts[0].containers == a.data.containers
    ensures forall v <- visits :: v.Try? && v.a.grace == grace && v.a.statusRevision == v.a.to.name
    ensures visits[0].a.to == b == visits[1].a.to && visits[2].a.to == c
    ensures IsUpdate(visits, parts, diff, 0, 1) && IsUpdate(visits, parts, diff, 2, 2)
    ensures Decide(visits[0].a, parts[0], diff).0.Waiting?
  {
    var toB := Op("replace", ROOT + (IMAGE_PREFIX + Itoa(i) + IMAGE_SUFFIX), imageB);
    var toC := toB.(value := imageC);
    elsewhere := (_, _) => None;
    diff := (t: Template, u: Template) =>
      if t == a.data && u == b.data then Some([toB]) else if t == b.data && u == c.data then Some([toC]) else None;
    ImageChangeIsAccepted(a.data, i, imageB, elsewhere);
    ImageChangeIsAccepted(b.data, i, imageC, elsewhere);
    OneChange(a.data, b.data, toB, elsewhere);
    OneChange(b.data, c.data, toC, elsewhere);
    var revisions := [a, b, c];
    var first := Attempt(revisions, b, b.name, grace, 0, false);
    var second := first.(now := grace * SECOND);
    var third := Attempt(revisions, c, c.name, grace, 2 * grace * SECOND, false);
    var part0 := Part(a.name, a.data.containers, false, false, None);
    NamedInThree(a, b, c);
    var part1 := Decide(first, part0, diff).1;
    var part2 := Decide(second, part1, diff).1;
    var part3 := Decide(third, part2, diff).1;
    FirstWaitsThenUpdates(first, second, third, part0, diff, grace);
    visits, parts := [Try(first), Try(second), Try(third)], [part0, part1, part2, part3];
    ThreeVisits(visits, parts, diff);
  }

  lemma NamedInThree(a: Revision, b: Revision, c: Revision)
    requires a.name != b.name && b.name != c.name && a.name != c.name
    ensures Find([a, b, c], a.name) == Some(a) && Find([a, b, c], b.name) == Some(b)
  {
    assert [a, b, c][1..] == [b, c];
  }

  lemma FirstWaitsThenUpdates(first: Attempt, second: Attempt, third: Attempt, part: Part, diff: Diff, grace: nat)
    requires grace > 0 && first.grace == second.grace == third.grace == grace
    requires !first.fails && !second.fails && !third.fails
    requires first.now == 0 && second.now == grace * SECOND && third.now == 2 * grace * SECOND
    requires second == first.(now := second.now) && second.statusRevision == second.to.name
    requires !part.gated && part.started.None? && Plan(first, part, diff).Some?
    requires Plan(third, part.(revision := second.to.name), diff).Some?
    ensures
      var part1 := Decide(first, part, diff).1;
      var part2 := Decide(second, part1, diff).1;
      && Decide(first, part, diff).0.Waiting? && Decide(second, part1, diff).0.Updated?
      && Decide(third, part2, diff).0.Updated?
      && part1.revision == part.revision && part2.revision == second.to.name
  {
    var part1 := Decide(first, part, diff).1;
    assert part1 == part.(started := Some(0));
    UpdatedIff(second, part1, diff);
    var part2 := Decide(second, part1, diff).1;
    assert part2.started == Some(grace);
    UpdatedIff(third, part2, diff);
  }

  lemma ThreeVisits(visits: seq<Visit>, parts: seq<Part>, diff: Diff)
    requires |visits| == 3 && |parts| == 4
    requires VisitStep(diff, parts[0], visits[0], parts[1]) && VisitStep(diff, parts[1], visits[1], parts[2])
    requires VisitStep(diff, parts[2], visits[2], parts[3])
    ensures IsRun(visits, parts, diff)
  {}
}
