/**
 * Heuristic role labelling of clusters (`assign_cluster_roles`).
 *
 * The source is an if/elif cascade over one cluster's season-total means.
 * Here the cascade is written as data: an ordered table of rules, each
 * with its predicate and its label (two of them choose between two labels).
 * `AssignClusterRoles` keeps the source's loop and its "Indefinido"
 * placeholder, which it is proved never to return.
 */
module RoleAssigner {
  import opened Common

  /** One row of the cluster-means table: statistic name to mean (None = NaN). */
  type MeanRow = map<string, Option<real>>

  // The labels, as the source spells them.
  const RosterLimit := "Jugador de Límite de Roster / Desarrollo"
  const RimProtector := "Protector de Aro / Pívot Defensivo"
  const DominantCenter := "Centro Dominante / Interior Eficiente"
  const ReboundingBig := "Hombre Grande Rebotador / De Rol"
  const CreatorScorer := "Base Creador de Juego / Anotador"
  const CreatorPure := "Base Creador de Juego Puro"
  const FacilitatorShooter := "Base de Rol / Facilitador (Tirador)"
  const BallHandler := "Base de Rol / Manejador de Balón"
  const ThreeSpecialist := "Especialista en Triples / Escolta Anotador"
  const VolumeScorer := "Anotador de Volumen / Alero Ofensivo"
  const RoleDefender := "Defensor de Rol"
  const AllAround := "Jugador Completo (All-Around)"
  const GeneralRole := "Jugador de Rol General"
  /** The placeholder the source starts from and never returns. */
  const Undefined := "Indefinido"

  /** The thirteen labels a cluster can receive. */
  const RoleLabels: set<string> :=
    {RosterLimit, RimProtector, DominantCenter, ReboundingBig, CreatorScorer, CreatorPure,
     FacilitatorShooter, BallHandler, ThreeSpecialist, VolumeScorer, RoleDefender, AllAround,
     GeneralRole}

  /** The statistics the rules read. */
  const RoleStats: set<string> :=
    {"MIN", "GP", "PTS", "BLK", "REB", "FG_PCT", "AST", "FG3M", "FG3_PCT", "FGA", "STL"}

  /** Every statistic a rule reads is a column of the means row. */
  predicate HasRoleStats(m: MeanRow)
  {
    forall s | s in RoleStats :: s in m
  }

  /** A statistic of a means row, with a missing (NaN) mean read as 0. */
  function Stat(m: MeanRow, name: string): real
    requires name in m
  {
    match m[name]
    case Some(x) => x
    case None => 0.0
  }

  /** The rules of the cascade, named after the role they give. */
  datatype Rule =
    | LowEngagement | RimProtection | DominantInterior | ReboundingBigMan | PrimaryCreator
    | RoleFacilitator | ThreePointSpecialist | VolumeScoring | RoleDefense | AllAroundPlayer

  /** The cascade, highest priority first. */
  const Cascade: seq<Rule> :=
    [LowEngagement, RimProtection, DominantInterior, ReboundingBigMan, PrimaryCreator,
     RoleFacilitator, ThreePointSpecialist, VolumeScoring, RoleDefense, AllAroundPlayer]

  /** The predicate of each rule. */
  predicate Matches(r: Rule, m: MeanRow)
    requires HasRoleStats(m)
  {
    match r
    case LowEngagement => Stat(m, "MIN") < 200.0 && Stat(m, "GP") < 25.0 && Stat(m, "PTS") < 100.0
    case RimProtection => Stat(m, "BLK") > 70.0 && Stat(m, "REB") > 300.0 && Stat(m, "MIN") > 800.0
    case DominantInterior => Stat(m, "FG_PCT") > 0.60 && Stat(m, "REB") > 400.0 && Stat(m, "PTS") > 300.0
    case ReboundingBigMan => Stat(m, "REB") > 350.0 && Stat(m, "MIN") > 800.0 && Stat(m, "PTS") < 600.0
    case PrimaryCreator => Stat(m, "AST") > 350.0 && Stat(m, "MIN") > 1200.0
    case RoleFacilitator => Stat(m, "AST") > 150.0 && Stat(m, "MIN") > 500.0 && Stat(m, "PTS") < 500.0
    case ThreePointSpecialist =>
      Stat(m, "FG3_PCT") > 0.38 && Stat(m, "FG3M") > 150.0 && Stat(m, "FGA") > 600.0
    case VolumeScoring => Stat(m, "PTS") > 800.0 && Stat(m, "FGA") > 650.0
    case RoleDefense => (Stat(m, "STL") > 80.0 || Stat(m, "BLK") > 40.0) && Stat(m, "MIN") > 700.0
    case AllAroundPlayer =>
      Stat(m, "PTS") > 500.0 && Stat(m, "AST") > 150.0 && Stat(m, "REB") > 250.0 &&
      Stat(m, "MIN") > 1000.0 && Stat(m, "FG_PCT") > 0.45
  }

  /** The label a matching rule gives; two rules choose between two labels. */
  function RuleLabel(r: Rule, m: MeanRow): (given: string)
    requires HasRoleStats(m)
    ensures given in RoleLabels - {GeneralRole, Undefined}
  {
    match r
    case LowEngagement => RosterLimit
    case RimProtection => RimProtector
    case DominantInterior => DominantCenter
    case ReboundingBigMan => ReboundingBig
    case PrimaryCreator =>
      if Stat(m, "PTS") > 800.0 && Stat(m, "FG3M") > 80.0 then CreatorScorer else CreatorPure
    case RoleFacilitator =>
      if Stat(m, "FG3M") > 70.0 && Stat(m, "FG3_PCT") > 0.35 then FacilitatorShooter else BallHandler
    case ThreePointSpecialist => ThreeSpecialist
    case VolumeScoring => VolumeScorer
    case RoleDefense => RoleDefender
    case AllAroundPlayer => AllAround
  }

  /** The labels a rule can give, whatever the statistics. */
  function RuleLabels(r: Rule): set<string>
  {
    match r
    case PrimaryCreator => {CreatorScorer, CreatorPure}
    case RoleFacilitator => {FacilitatorShooter, BallHandler}
    case _ => {RuleLabel(r, map s | s in RoleStats :: None)}
  }

  /** The label of the first rule of `rules` that matches, if any. */
  function FirstMatch(rules: seq<Rule>, m: MeanRow): (r: Option<string>)
    requires HasRoleStats(m)
    ensures r.Some? <==> exists i :: 0 <= i < |rules| && Matches(rules[i], m)
    ensures r.Some? ==> r.value in RoleLabels - {GeneralRole, Undefined}
  {
    if rules == [] then None
    else if Matches(rules[0], m) then Some(RuleLabel(rules[0], m))
    else
      var rest := FirstMatch(rules[1..], m);
      assert forall i :: 1 <= i < |rules| ==> rules[i] == rules[1..][i - 1];
      rest
  }

  /** The role of one cluster: the first matching rule's label, else the general role. */
  function RoleOf(m: MeanRow): (role: string)
    requires HasRoleStats(m)
    ensures role in RoleLabels && role != Undefined
  {
    match FirstMatch(Cascade, m)
    case Some(chosen) => chosen
    case None => GeneralRole
  }

  /** One cluster of the cluster-means table, in table order. */
  datatype ClusterRow = ClusterRow(id: int, means: MeanRow)

  /** No later row of `rows` has the id of row `i` (the one a dict keeps). */
  predicate LastWithId(rows: seq<ClusterRow>, i: nat)
    requires i < |rows|
  {
    forall j :: i < j < |rows| ==> rows[j].id != rows[i].id
  }

  /**
   * `assign_cluster_roles`: fills the `cluster_roles` dict row by row. Every
   * cluster id of the table gets exactly one key, whose label is the role of
   * that cluster's means (of its last row, as a dict keeps the last write).
   */
  method AssignClusterRoles(rows: seq<ClusterRow>) returns (roles: map<int, string>)
    requires forall i :: 0 <= i < |rows| ==> HasRoleStats(rows[i].means)
    ensures roles.Keys == set i | 0 <= i < |rows| :: rows[i].id
    ensures forall i :: 0 <= i < |rows| && LastWithId(rows, i) ==>
              roles[rows[i].id] == RoleOf(rows[i].means)
    ensures forall id :: id in roles ==> roles[id] in RoleLabels && roles[id] != Undefined
  {
    roles := map[];
    for k := 0 to |rows|
      invariant roles.Keys == set i | 0 <= i < k :: rows[i].id
      invariant forall i :: 0 <= i < k && (forall j :: i < j < k ==> rows[j].id != rows[i].id) ==>
                  roles[rows[i].id] == RoleOf(rows[i].means)
      invariant forall id :: id in roles ==> roles[id] in RoleLabels && roles[id] != Undefined
    {
      // the per-cluster body: the cascade on the mutable role, from the placeholder
      var role := Undefined;
      match FirstMatch(Cascade, rows[k].means) {
        case Some(chosen) => role := chosen;
        case None =>
      }
      if role == Undefined {
        role := GeneralRole;
      }
      roles := roles[rows[k].id := role];
    }
  }

  /** First match wins: a matching rule preceded only by non-matching ones decides. */
  lemma {:induction false} FirstMatchAt(rules: seq<Rule>, m: MeanRow, i: nat)
    requires HasRoleStats(m)
    requires i < |rules| && Matches(rules[i], m)
    requires forall j :: 0 <= j < i ==> !Matches(rules[j], m)
    ensures FirstMatch(rules, m) == Some(RuleLabel(rules[i], m))
  {
    if i > 0 {
      FirstMatchAt(rules[1..], m, i - 1);
    }
  }


  /** The rule that decided a match: it matches and no earlier rule does. */
  lemma {:induction false} FirstMatchWitness(rules: seq<Rule>, m: MeanRow)
    requires HasRoleStats(m)
    requires FirstMatch(rules, m).Some?
    ensures exists k :: 0 <= k < |rules| && Matches(rules[k], m) &&
              (forall j :: 0 <= j < k ==> !Matches(rules[j], m)) &&
              FirstMatch(rules, m).value == RuleLabel(rules[k], m)
  {
    if !Matches(rules[0], m) {
      FirstMatchWitness(rules[1..], m);
      var k :| 0 <= k < |rules[1..]| && Matches(rules[1..][k], m) &&
               (forall j :: 0 <= j < k ==> !Matches(rules[1..][j], m)) &&
               FirstMatch(rules[1..], m).value == RuleLabel(rules[1..][k], m);
      assert forall j :: 0 <= j < k + 1 ==> !Matches(rules[j], m) by {
        forall j | 0 <= j < k + 1 ensures !Matches(rules[j], m) {
          if j > 0 { assert rules[j] == rules[1..][j - 1]; }
        }
      }
      assert Matches(rules[k + 1], m);
    } else {
      assert Matches(rules[0], m);
    }
  }

  /** Different rules of the cascade never share a label. */
  lemma RuleLabelsDistinct(m: MeanRow, k: nat, i: nat)
    requires HasRoleStats(m)
    requires k < |Cascade| && i < |Cascade| && k != i
    ensures RuleLabel(Cascade[k], m) !in RuleLabels(Cascade[i])
    ensures RuleLabel(Cascade[i], m) in RuleLabels(Cascade[i])
    ensures GeneralRole !in RuleLabels(Cascade[i])
  {
  }

  /**
   * First match wins, both ways: a cluster gets a label of rule `i` exactly
   * when rule `i` matches and every earlier rule does not.
   */
  lemma RoleIsFirstMatchingRule(m: MeanRow, i: nat)
    requires HasRoleStats(m) && i < |Cascade|
    ensures RoleOf(m) in RuleLabels(Cascade[i]) <==>
            Matches(Cascade[i], m) && forall j :: 0 <= j < i ==> !Matches(Cascade[j], m)
  {
    if Matches(Cascade[i], m) && forall j :: 0 <= j < i ==> !Matches(Cascade[j], m) {
      FirstMatchAt(Cascade, m, i);
      RuleLabelsDistinct(m, i, if i == 0 then 1 else 0);
    } else if FirstMatch(Cascade, m).Some? {
      FirstMatchWitness(Cascade, m);
      var k :| 0 <= k < |Cascade| && Matches(Cascade[k], m) &&
               (forall j :: 0 <= j < k ==> !Matches(Cascade[j], m)) &&
               FirstMatch(Cascade, m).value == RuleLabel(Cascade[k], m);
      assert k != i;
      RuleLabelsDistinct(m, k, i);
    } else {
      RuleLabelsDistinct(m, i, if i == 0 then 1 else 0);
    }
  }

  /** The general role is given exactly when no rule of the cascade matches. */
  lemma GeneralRoleIffNoRule(m: MeanRow)
    requires HasRoleStats(m)
    ensures RoleOf(m) == GeneralRole <==> forall i :: 0 <= i < |Cascade| ==> !Matches(Cascade[i], m)
  {
  }

  /**
   * A cluster with under 200 minutes, under 25 games and under 100 points is
   * a roster-limit player whatever its other statistics.
   */
  lemma LowEngagementAlwaysWins(m: MeanRow)
    requires HasRoleStats(m)
    requires Stat(m, "MIN") < 200.0 && Stat(m, "GP") < 25.0 && Stat(m, "PTS") < 100.0
    ensures RoleOf(m) == RosterLimit
  {
    FirstMatchAt(Cascade, m, 0);
  }

  /**
   * The primary-creator rule (AST > 350 and MIN > 1200, reached when no
   * earlier rule matched) gives the scorer label exactly when PTS > 800 and
   * FG3M > 80, and the pure creator label otherwise.
   */
  lemma CreatorSubChoice(m: MeanRow)
    requires HasRoleStats(m)
    requires Stat(m, "AST") > 350.0 && Stat(m, "MIN") > 1200.0
    requires forall j :: 0 <= j < 4 ==> !Matches(Cascade[j], m)
    ensures RoleOf(m) in {CreatorScorer, CreatorPure}
    ensures RoleOf(m) == CreatorScorer <==> Stat(m, "PTS") > 800.0 && Stat(m, "FG3M") > 80.0
  {
    FirstMatchAt(Cascade, m, 4);
  }

  /**
   * The facilitator rule (AST > 150, MIN > 500 and PTS < 500, reached when no
   * earlier rule matched) gives the shooter label exactly when FG3M > 70 and
   * FG3_PCT > 0.35, and the ball-handler label otherwise.
   */
  lemma FacilitatorSubChoice(m: MeanRow)
    requires HasRoleStats(m)
    requires Stat(m, "AST") > 150.0 && Stat(m, "MIN") > 500.0 && Stat(m, "PTS") < 500.0
    requires forall j :: 0 <= j < 5 ==> !Matches(Cascade[j], m)
    ensures RoleOf(m) in {FacilitatorShooter, BallHandler}
    ensures RoleOf(m) == FacilitatorShooter <==> Stat(m, "FG3M") > 70.0 && Stat(m, "FG3_PCT") > 0.35
  {
    FirstMatchAt(Cascade, m, 5);
  }

  /**
   * The low-engagement thresholds exclude every later rule but the three-point
   * one: each of the others demands more minutes or more points than a
   * low-engagement cluster has.
   */
  lemma LowEngagementExclusive(m: MeanRow, r: Rule)
    requires HasRoleStats(m)
    requires Matches(LowEngagement, m)
    requires r != LowEngagement && r != ThreePointSpecialist
    ensures !Matches(r, m)
  {
  }

  /** Rules see a means row only through the `Stat` reading of each statistic. */
  lemma {:induction false} FirstMatchReadsStats(rules: seq<Rule>, m1: MeanRow, m2: MeanRow)
    requires HasRoleStats(m1) && HasRoleStats(m2)
    requires forall s | s in RoleStats :: Stat(m1, s) == Stat(m2, s)
    ensures FirstMatch(rules, m1) == FirstMatch(rules, m2)
  {
    if rules != [] {
      FirstMatchReadsStats(rules[1..], m1, m2);
    }
  }

  /** A missing (NaN) mean gives the same role as a mean of 0. */
  lemma MissingReadsAsZero(m: MeanRow, s: string)
    requires HasRoleStats(m)
    ensures RoleOf(m[s := None]) == RoleOf(m[s := Some(0.0)])
  {
    FirstMatchReadsStats(Cascade, m[s := None], m[s := Some(0.0)]);
  }
}
