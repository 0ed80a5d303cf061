/** Revisioned project plans (control_plane/project_plan.py). */
module Plans {
  import opened Types

  /** Names a mutation or binding field can carry. */
  datatype Field =
    | Title | Objective
    | UpdatePlanDigest | ServiceName | ServiceScope | Atomicity
    | OtherField(name: string)

  type Fields = map<Field, string>

  const ALLOWED_FIELDS: set<Field> := {Title, Objective}
  const BINDING_FIELDS: set<Field> := {UpdatePlanDigest, ServiceName, ServiceScope, Atomicity}
  const MAX_TITLE := 200
  const MAX_OBJECTIVE := 2000

  /** The stored canonical digest is a function of the other fields, so the
      value itself stands for its digest. */
  datatype ProjectPlan = ProjectPlan(
    target: Target,
    environment: Environment,
    revision: nat,
    title: string,
    objective: string,
    createdAt: Time,
    updatedAt: Time,
    enabled: bool
  )

  predicate IsControl(c: char) { c as int < 32 || c as int == 127 }

  /** Characters that trimming removes and that are not already control codes. */
  predicate IsSpace(c: char) {
    c as int in {0x20, 0x85, 0xA0, 0x1680, 0x2028, 0x2029, 0x202F, 0x205F, 0x3000} ||
    0x2000 <= c as int <= 0x200A
  }

  predicate ValidText(t: string, maximum: nat) {
    && 0 < |t| <= maximum
    && (forall i :: 0 <= i < |t| ==> !IsControl(t[i]))
    && !IsSpace(t[0]) && !IsSpace(t[|t| - 1])
  }

  function TitleAfter(p: ProjectPlan, fields: Fields): string {
    if Title in fields then fields[Title] else p.title
  }

  function ObjectiveAfter(p: ProjectPlan, fields: Fields): string {
    if Objective in fields then fields[Objective] else p.objective
  }

  /** What `ProjectPlan.update` insists on besides the revision. */
  predicate Acceptable(p: ProjectPlan, fields: Fields) {
    && p.environment == Staging
    && fields != map[] && fields.Keys <= ALLOWED_FIELDS
    && ValidText(TitleAfter(p, fields), MAX_TITLE)
    && ValidText(ObjectiveAfter(p, fields), MAX_OBJECTIVE)
  }

  predicate Carries(p: ProjectPlan, fields: Fields) {
    && (Title in fields ==> p.title == fields[Title])
    && (Objective in fields ==> p.objective == fields[Objective])
  }

  /** Compare-and-set on the revision: the result is exactly one revision on,
      carries the requested fields and keeps everything else. */
  function Update(p: ProjectPlan, expectedRevision: nat, fields: Fields, now: Time): (r: Result<ProjectPlan>)
    ensures r.Ok? <==> expectedRevision == p.revision && Acceptable(p, fields)
    ensures r.Ok? ==> r.value.revision == p.revision + 1 && Carries(r.value, fields)
    ensures r.Ok? ==> r.value.(revision := p.revision, title := p.title, objective := p.objective,
                               updatedAt := p.updatedAt) == p
    ensures r.Ok? && Title !in fields ==> r.value.title == p.title
    ensures r.Ok? && Objective !in fields ==> r.value.objective == p.objective
    ensures r.Ok? ==> r.value.updatedAt == now
  {
    if p.environment != Staging then Err(PlanRefused)
    else if expectedRevision != p.revision then Err(PlanRefused)
    else if fields == map[] || !(fields.Keys <= ALLOWED_FIELDS) then Err(PlanRefused)
    else
      var title := TitleAfter(p, fields);
      var objective := ObjectiveAfter(p, fields);
      if !ValidText(title, MAX_TITLE) || !ValidText(objective, MAX_OBJECTIVE) then Err(PlanRefused)
      else Ok(p.(revision := p.revision + 1, title := title, objective := objective, updatedAt := now))
  }

  /** Metadata that may become mutation fields: everything but the bindings. */
  function MutationFields(metadata: Fields): (f: Fields)
    ensures f.Keys == metadata.Keys - BINDING_FIELDS
    ensures forall k :: k in f ==> f[k] == metadata[k]
  {
    map k | k in metadata && k !in BINDING_FIELDS :: metadata[k]
  }

  /** What a stored text looks like: not empty, not too long, without control
      characters, and not padded. */
  predicate Clean(t: string, maximum: nat) {
    && 1 <= |t| <= maximum
    && (forall c :: c in t ==> (c as int >= 32 && c as int != 127))
    && t[0] != ' ' && t[|t| - 1] != ' '
  }

  /** Whatever an update is asked for, it is refused unless the plan it would
      leave has a clean title of at most 200 characters and a clean objective of
      at most 2000. */
  lemma UpdatedTextIsClean(p: ProjectPlan, revision: nat, fields: Fields, now: Time)
    requires Update(p, revision, fields, now).Ok?
    ensures var q := Update(p, revision, fields, now).value;
            Clean(q.title, 200) && Clean(q.objective, 2000) && q.environment == Staging
  {
  }
}
