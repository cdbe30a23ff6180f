/** The permission table of `AbilityFactory.createForUser` and an evaluator for
    it with the semantics of the CASL library the factory builds on: a rule is
    relevant when its action is the requested one or `manage` and its subject is
    the requested type or `all`; among the relevant rules whose conditions hold,
    the one defined last decides, and `cannot` rules deny; when no rule applies
    the answer is deny. A check against a bare subject type does not evaluate
    conditions: there a conditioned `can` rule applies and a conditioned
    `cannot` rule does not. A check against an instance resolves the
    instance's type from its class and evaluates the conditions on its
    fields. */
module Ability {
  import opened Common

  datatype Role = Admin | Staff | Customer

  datatype Action = Manage | Create | Read | Update | Delete

  /** The subject types the ability knows; `AllSubjects` is CASL's 'all'. */
  datatype SubjectType = UserSubject | ProductSubject | ReviewSubject | OrderSubject | AllSubjects

  /** A record checked as an instance, tagged with its entity class. Only the
      fields that a rule condition can mention are kept. */
  datatype Instance =
    | UserRecord(id: int)
    | ProductRecord(id: int)
    | ReviewRecord(id: int, userId: int)
    | OrderRecord(id: int, userId: int)

  /** What `ability.can` is asked about: a class (type-level check) or an instance. */
  datatype Subject = OfType(t: SubjectType) | OfInstance(inst: Instance)

  datatype Field = IdField | UserIdField

  /** A rule's optional condition `{ field: value }`. */
  datatype Condition = Unconditional | FieldEquals(field: Field, value: int)

  /** One rule of an ability; `inverted` marks a `cannot` rule. */
  datatype Rule = Rule(actions: seq<Action>, subjects: seq<SubjectType>, condition: Condition, inverted: bool)

  /** The rules in the order the builder received them. */
  type Ability = seq<Rule>

  /** The authenticated user the ability is built for. */
  datatype Requester = Requester(id: int, role: Role)

  /** The subject type of an instance: its class (`item.constructor`). */
  function DetectSubjectType(inst: Instance): (t: SubjectType)
    ensures t != AllSubjects
    ensures t == UserSubject <==> inst.UserRecord?
    ensures t == ProductSubject <==> inst.ProductRecord?
    ensures t == ReviewSubject <==> inst.ReviewRecord?
    ensures t == OrderSubject <==> inst.OrderRecord?
  {
    match inst
    case UserRecord(_) => UserSubject
    case ProductRecord(_) => ProductSubject
    case ReviewRecord(_, _) => ReviewSubject
    case OrderRecord(_, _) => OrderSubject
  }

  function SubjectTypeOf(s: Subject): SubjectType {
    match s
    case OfType(t) => t
    case OfInstance(inst) => DetectSubjectType(inst)
  }

  /** The value of a field of an instance, `None` when its class has no such field. */
  function FieldValue(inst: Instance, f: Field): Option<int> {
    match f
    case IdField => Some(inst.id)
    case UserIdField =>
      match inst
      case ReviewRecord(_, owner) => Some(owner)
      case OrderRecord(_, owner) => Some(owner)
      case _ => None
  }

  /** Whether a rule's condition admits the subject. For a type-level check
      the condition is not evaluated: a conditioned rule then applies iff it
      is not inverted, so a conditioned `cannot` never denies a whole type. */
  predicate ConditionHolds(r: Rule, s: Subject) {
    match r.condition
    case Unconditional => true
    case FieldEquals(f, v) => if s.OfType? then !r.inverted else FieldValue(s.inst, f) == Some(v)
  }

  predicate Relevant(r: Rule, a: Action, t: SubjectType) {
    (a in r.actions || Manage in r.actions) && (t in r.subjects || AllSubjects in r.subjects)
  }

  predicate Applies(r: Rule, a: Action, s: Subject) {
    Relevant(r, a, SubjectTypeOf(s)) && ConditionHolds(r, s)
  }

  /** Rule `i` applies and no rule defined after it does. */
  predicate LastApplicable(ability: Ability, i: int, a: Action, s: Subject)
    requires 0 <= i < |ability|
  {
    Applies(ability[i], a, s) && forall j :: i < j < |ability| ==> !Applies(ability[j], a, s)
  }

  /** `ability.can(a, s)`: the last applicable rule decides; none means deny. */
  function Can(ability: Ability, a: Action, s: Subject): bool
    decreases |ability|
  {
    if ability == [] then false
    else
      var last := ability[|ability| - 1];
      if Applies(last, a, s) then !last.inverted else Can(ability[..|ability| - 1], a, s)
  }

  /** `can(actions, subjects, conditions)` on the builder: an allowing rule. */
  function Allow(actions: seq<Action>, subjects: seq<SubjectType>, condition: Condition): Rule {
    Rule(actions, subjects, condition, false)
  }

  /** `AbilityFactory.createForUser`: the rules for a requester. Only `can`
      is ever called, so every rule allows. */
  function CreateForUser(user: Requester): (ability: Ability)
    ensures |ability| > 0
    ensures forall i :: 0 <= i < |ability| ==> !ability[i].inverted
  {
    if user.role == Admin then
      [Allow([Manage], [AllSubjects], Unconditional)]
    else if user.role == Staff then
      [ Allow([Read], [AllSubjects], Unconditional),
        Allow([Create, Update], [ProductSubject, OrderSubject], Unconditional) ]
    else
      CustomerRules(user.id)
  }

  /** The rules every role other than ADMIN and STAFF receives. */
  function CustomerRules(id: int): Ability {
    [ Allow([Read], [ProductSubject, ReviewSubject], Unconditional),
      Allow([Create], [ReviewSubject, OrderSubject], Unconditional),
      Allow([Update], [UserSubject], FieldEquals(IdField, id)),
      Allow([Update], [ReviewSubject], FieldEquals(UserIdField, id)),
      Allow([Delete], [ReviewSubject], FieldEquals(UserIdField, id)) ]
  }

  /** Whether the requester owns the subject through the given field; a
      type-level subject passes, since its conditions are not evaluated. */
  predicate OwnedThrough(s: Subject, f: Field, id: int) {
    s.OfType? || FieldValue(s.inst, f) == Some(id)
  }

  /** The role table stated directly, independently of rules and evaluation. */
  predicate Permitted(user: Requester, a: Action, s: Subject) {
    var t := SubjectTypeOf(s);
    match user.role
    case Admin => true
    case Staff =>
      a == Read || ((a == Create || a == Update) && (t == ProductSubject || t == OrderSubject))
    case Customer =>
      || (a == Read && (t == ProductSubject || t == ReviewSubject))
      || (a == Create && (t == ReviewSubject || t == OrderSubject))
      || (a == Update && t == UserSubject && OwnedThrough(s, IdField, user.id))
      || ((a == Update || a == Delete) && t == ReviewSubject && OwnedThrough(s, UserIdField, user.id))
  }

  /** The decision is the last applicable rule's: `can` holds exactly when
      some applicable allowing rule is followed by no applicable rule. */
  lemma {:induction false} LastApplicableRuleDecides(ability: Ability, a: Action, s: Subject)
    ensures Can(ability, a, s) <==> exists i :: 0 <= i < |ability| && LastApplicable(ability, i, a, s) && !ability[i].inverted
  {
    if ability != [] {
      var n := |ability| - 1;
      var init := ability[..n];
      LastApplicableRuleDecides(init, a, s);
      if Applies(ability[n], a, s) {
        assert LastApplicable(ability, n, a, s);
        forall i | 0 <= i < n
          ensures !LastApplicable(ability, i, a, s)
        {
          assert Applies(ability[n], a, s);
        }
      } else {
        forall i | 0 <= i < n
          ensures LastApplicable(ability, i, a, s) <==> LastApplicable(init, i, a, s)
        {
          assert init[i] == ability[i];
          if LastApplicable(init, i, a, s) {
            forall j | i < j < |ability|
              ensures !Applies(ability[j], a, s)
            {
              if j < n { assert init[j] == ability[j]; }
            }
          }
          if LastApplicable(ability, i, a, s) {
            forall j | i < j < n
              ensures !Applies(init[j], a, s)
            {
              assert init[j] == ability[j];
            }
          }
        }
        if Can(ability, a, s) {
          var i :| 0 <= i < n && LastApplicable(init, i, a, s) && !init[i].inverted;
          assert LastApplicable(ability, i, a, s) && !ability[i].inverted;
        }
      }
    }
  }

  /** A `cannot` rule with a condition, added last, leaves every type-level
      check as it was; against an instance it denies exactly when its
      condition holds on that instance and it is relevant. */
  lemma ConditionedCannotSkipsTypeLevelChecks(ability: Ability, actions: seq<Action>, subjects: seq<SubjectType>, f: Field, v: int, a: Action, s: Subject)
    ensures var r := Rule(actions, subjects, FieldEquals(f, v), true);
      s.OfType? ==> Can(ability + [r], a, s) == Can(ability, a, s)
    ensures var r := Rule(actions, subjects, FieldEquals(f, v), true);
      s.OfInstance? && Relevant(r, a, SubjectTypeOf(s)) && FieldValue(s.inst, f) == Some(v) ==>
        !Can(ability + [r], a, s)
  {
    var r := Rule(actions, subjects, FieldEquals(f, v), true);
    assert (ability + [r])[..|ability|] == ability;
  }

  /** Without `cannot` rules, an ability allows exactly when some rule applies:
      the order of the rules does not matter. */
  lemma {:induction false} CanWithoutCannotRules(ability: Ability, a: Action, s: Subject)
    requires forall i :: 0 <= i < |ability| ==> !ability[i].inverted
    ensures Can(ability, a, s) <==> exists i :: 0 <= i < |ability| && Applies(ability[i], a, s)
  {
    if ability != [] {
      var init := ability[..|ability| - 1];
      CanWithoutCannotRules(init, a, s);
      if !Applies(ability[|ability| - 1], a, s) {
        if exists i :: 0 <= i < |ability| && Applies(ability[i], a, s) {
          var i :| 0 <= i < |ability| && Applies(ability[i], a, s);
          assert init[i] == ability[i];
        }
      }
    }
  }

  /** The rules built for a requester decide exactly as the role table says. */
  lemma CreateForUserMatchesTable(user: Requester, a: Action, s: Subject)
    ensures Can(CreateForUser(user), a, s) == Permitted(user, a, s)
  {
    var ability := CreateForUser(user);
    CanWithoutCannotRules(ability, a, s);
    if Permitted(user, a, s) {
      var t := SubjectTypeOf(s);
      match user.role
      case Admin => assert Applies(ability[0], a, s);
      case Staff =>
        if a == Read { assert Applies(ability[0], a, s); } else { assert Applies(ability[1], a, s); }
      case Customer =>
        if a == Read { assert Applies(ability[0], a, s); }
        else if a == Create { assert Applies(ability[1], a, s); }
        else if a == Update && t == UserSubject { assert Applies(ability[2], a, s); }
        else if a == Update { assert Applies(ability[3], a, s); }
        else { assert Applies(ability[4], a, s); }
    }
  }

  /** ADMIN: the single manage-on-all rule allows every action on every
      subject type and every instance. */
  lemma AdminMayDoAnything(id: int, a: Action, s: Subject)
    ensures Can(CreateForUser(Requester(id, Admin)), a, s)
  {
    CreateForUserMatchesTable(Requester(id, Admin), a, s);
  }

  /** STAFF reads every subject type and instance. */
  lemma StaffMayReadAnything(id: int, s: Subject)
    ensures Can(CreateForUser(Requester(id, Staff)), Read, s)
  {
    CreateForUserMatchesTable(Requester(id, Staff), Read, s);
  }

  /** STAFF creates and updates exactly products and orders, and never deletes
      or manages anything. */
  lemma StaffWrites(id: int, a: Action, s: Subject)
    ensures a == Create || a == Update ==>
      (Can(CreateForUser(Requester(id, Staff)), a, s) <==>
        SubjectTypeOf(s) == ProductSubject || SubjectTypeOf(s) == OrderSubject)
    ensures a == Delete || a == Manage ==> !Can(CreateForUser(Requester(id, Staff)), a, s)
  {
    CreateForUserMatchesTable(Requester(id, Staff), a, s);
  }

  /** CUSTOMER reads exactly products and reviews. */
  lemma CustomerReads(id: int, s: Subject)
    ensures Can(CreateForUser(Requester(id, Customer)), Read, s) <==>
      SubjectTypeOf(s) == ProductSubject || SubjectTypeOf(s) == ReviewSubject
  {
    CreateForUserMatchesTable(Requester(id, Customer), Read, s);
  }

  /** CUSTOMER creates exactly reviews and orders. */
  lemma CustomerCreates(id: int, s: Subject)
    ensures Can(CreateForUser(Requester(id, Customer)), Create, s) <==>
      SubjectTypeOf(s) == ReviewSubject || SubjectTypeOf(s) == OrderSubject
  {
    CreateForUserMatchesTable(Requester(id, Customer), Create, s);
  }

  /** CUSTOMER updates a user instance exactly when it is their own record. */
  lemma CustomerUpdatesOwnUserOnly(id: int, other: int)
    ensures Can(CreateForUser(Requester(id, Customer)), Update, OfInstance(UserRecord(other))) <==> other == id
  {
    CreateForUserMatchesTable(Requester(id, Customer), Update, OfInstance(UserRecord(other)));
  }

  /** CUSTOMER updates or deletes a review instance exactly when they wrote it. */
  lemma CustomerChangesOwnReviewOnly(id: int, a: Action, reviewId: int, author: int)
    requires a == Update || a == Delete
    ensures Can(CreateForUser(Requester(id, Customer)), a, OfInstance(ReviewRecord(reviewId, author))) <==> author == id
  {
    CreateForUserMatchesTable(Requester(id, Customer), a, OfInstance(ReviewRecord(reviewId, author)));
  }

  /** A type-level check skips the ownership conditions: CUSTOMER may update
      the User type and update or delete the Review type. */
  lemma CustomerTypeLevelSkipsConditions(id: int)
    ensures Can(CreateForUser(Requester(id, Customer)), Update, OfType(UserSubject))
    ensures Can(CreateForUser(Requester(id, Customer)), Update, OfType(ReviewSubject))
    ensures Can(CreateForUser(Requester(id, Customer)), Delete, OfType(ReviewSubject))
  {
    CreateForUserMatchesTable(Requester(id, Customer), Update, OfType(UserSubject));
    CreateForUserMatchesTable(Requester(id, Customer), Update, OfType(ReviewSubject));
    CreateForUserMatchesTable(Requester(id, Customer), Delete, OfType(ReviewSubject));
  }

  /** Default deny for CUSTOMER: nothing is deleted except reviews, nothing
      is managed, and orders and users are never read. */
  lemma CustomerDefaultDeny(id: int, s: Subject)
    ensures SubjectTypeOf(s) != ReviewSubject ==> !Can(CreateForUser(Requester(id, Customer)), Delete, s)
    ensures !Can(CreateForUser(Requester(id, Customer)), Manage, s)
    ensures SubjectTypeOf(s) == UserSubject || SubjectTypeOf(s) == OrderSubject ==>
      !Can(CreateForUser(Requester(id, Customer)), Read, s)
  {
    CreateForUserMatchesTable(Requester(id, Customer), Delete, s);
    CreateForUserMatchesTable(Requester(id, Customer), Manage, s);
    CreateForUserMatchesTable(Requester(id, Customer), Read, s);
  }

  /** Deleting the User type is allowed for ADMIN only. */
  lemma OnlyAdminDeletesUsers(user: Requester)
    ensures Can(CreateForUser(user), Delete, OfType(UserSubject)) <==> user.role == Admin
  {
    CreateForUserMatchesTable(user, Delete, OfType(UserSubject));
  }
}
