/// The persistent store behind the company forms, reduced to what the
/// resolvers observe: one table per model, keyed by primary key, and the
/// outcome of `.get(id=…)` on a manager (global) or on a related manager
/// (scoped to a parent instance).
module Store {
  import opened Values

  /// A stored row: its name and the primary key of the row it belongs to
  /// (`department_id` for a team, `company_id` for a department, none for a
  /// company).
  datatype Row = Row(name: Value, parent: Option<int>)

  type Table = map<int, Row>

  /// Auto-incremented primary keys start at 1.
  predicate WellKeyed(t: Table) {
    forall id :: id in t ==> id > 0
  }

  /// A model instance handed to a form: a stored row fetched by its key, or a
  /// new, unsaved instance built from the submitted name and a reference to
  /// its parent instance (`None` where the parent is `None` or not applicable).
  datatype Entity =
    | Stored(id: int, row: Row)
    | Transient(name: Value, parent: Option<Entity>)

  /// Where `.get(id=…)` looks: every row of the table (`Model.objects`), or
  /// the rows related to a parent instance (`self.instance.teams`), where the
  /// parent may be `None`.
  datatype Scope = Global | Within(parent: Option<Entity>)

  /// The outcome of `.get(id=…)`: the matching row, or the exception raised.
  datatype Fetch = Found(id: int, row: Row) | Raised(exc: Exc)

  /// Whether a row is visible through the scope. An unsaved parent has no
  /// primary key, so no stored row is related to it.
  predicate InScope(row: Row, scope: Scope) {
    match scope
    case Global => true
    case Within(p) => p.Some? && p.value.Stored? && row.parent == Some(p.value.id)
  }

  /// Whether `.get` can be called on the scope at all: the global manager,
  /// or the related manager of a saved parent.
  predicate Queryable(scope: Scope) {
    scope.Global? || (scope.parent.Some? && scope.parent.value.Stored?)
  }

  /// `scope.get(id=v)`. The manager is reached before the identifier is
  /// looked at: a `None` parent has no related manager (`AttributeError`),
  /// and the related manager of an unsaved parent refuses to be used
  /// (`ValueError`, as Django 4.1 and later raise it). Then the identifier
  /// is coerced to an integer (`ValueError`, `TypeError`), and the row is
  /// looked up among those in scope (`DoesNotExist`).
  function FetchById(t: Table, scope: Scope, v: Value): (r: Fetch)
    ensures r.Found? <==> CoerceId(v).IdOk? && CoerceId(v).n in t && InScope(t[CoerceId(v).n], scope)
    ensures r.Found? ==> r.id == CoerceId(v).n && r.id in t && r.row == t[r.id] && InScope(r.row, scope)
    ensures r.Raised? && r.exc == AttributeError <==> scope == Within(None)
    ensures scope.Within? && scope.parent.Some? && scope.parent.value.Transient? ==> r == Raised(ValueError)
    ensures Queryable(scope) && CoerceId(v).IdError? ==> r == Raised(CoerceId(v).exc)
    ensures Queryable(scope) && CoerceId(v).IdOk? ==>
              (r.Found? || r == Raised(DoesNotExist))
  {
    if scope == Within(None) then Raised(AttributeError)
    else if !Queryable(scope) then Raised(ValueError)
    else match CoerceId(v)
      case IdError(e) => Raised(e)
      case IdOk(n) => if n in t && InScope(t[n], scope) then Found(n, t[n]) else Raised(DoesNotExist)
  }

  /// Key 0 is never stored, so looking it up always fails.
  lemma ZeroIsNeverFound(t: Table, scope: Scope)
    requires WellKeyed(t)
    ensures FetchById(t, scope, Int(0)).Raised?
  {
  }
}
