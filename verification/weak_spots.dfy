/**
 * Weak-spot analysis of one player against the mean of the player's cluster
 * (`analyze_player_weak_spots`), with the statistic and drill tables it uses.
 *
 * For every statistic column the player's value is compared with the cluster
 * mean; three rules (shooting percentages, "lower is better" statistics and
 * all others) decide whether the statistic is a weak spot and what value the
 * player is projected to reach. Each weak spot is then described in text, and
 * the first drill key found in that text picks the drills suggested for it.
 * Numbers inside descriptions are produced by a `Render` parameter.
 */
module WeakSpots {
  import opened Common
  import RoleAssigner

  // ---------------------------------------------------------------------------
  // Constant tables

  /** The statistic columns the program clusters on, in their declared order. */
  const ClusteringStats: seq<string> :=
    ["MIN", "FGM", "FGA", "FG_PCT", "FG3M", "FG3A", "FG3_PCT",
     "FTM", "FTA", "FT_PCT", "OREB", "DREB", "REB", "AST", "STL",
     "BLK", "TOV", "PF", "PTS", "GP", "GS"]

  /** Display names of the statistics. */
  const StatNames: map<string, string> := map[
    "MIN" := "Minutos",
    "FGM" := "Tiros de Campo Anotados",
    "FGA" := "Tiros de Campo Intentados",
    "FG_PCT" := "Tiros de Campo %",
    "FG3M" := "Triples Anotados",
    "FG3A" := "Triples Intentados",
    "FG3_PCT" := "Triples %",
    "FTM" := "Tiros Libres Anotados",
    "FTA" := "Tiros Libres Intentados",
    "FT_PCT" := "Tiros Libres %",
    "OREB" := "Rebotes Ofensivos",
    "DREB" := "Rebotes Defensivos",
    "REB" := "Rebotes Totales",
    "AST" := "Asistencias",
    "STL" := "Robos",
    "BLK" := "Bloqueos",
    "TOV" := "Pérdidas de Balón",
    "PF" := "Faltas Personales",
    "PTS" := "Puntos",
    "GP" := "Partidos Jugados",
    "GS" := "Partidos Iniciados"]

  /** A drill table: keys with their drills, in the order the lookup tries them. */
  type Table = seq<(string, seq<string>)>

  /**
   * The drill table: each key with its drills, in the table's (insertion)
   * order, which is the order the lookup tries the keys in.
   */
  const DrillTable: Table := [
    ("puntería/eficiencia", [
        "1. Drill de Tiro de Campo: 50 tiros de cada spot (cerca del aro, media distancia, tres puntos). Enfocarse en la forma y el seguimiento.",
        "2. Tiro después de drible: 20 tiros de pull-up desde la media distancia, 20 tiros de step-back.",
        "3. Tiros Libres: 10 series de 5 tiros libres, buscando al menos 80% de efectividad."]),
    ("Reducir TOV", [
        "1. Drill de Manejo de Balón bajo Presión: Driblear con dos balones, driblear mientras un compañero intenta quitar el balón sin contacto.",
        "2. Pase y Movimiento: Ejercicios de pase en movimiento, con énfasis en la precisión y la toma de decisiones rápidas (ej. 3 contra 2, 4 contra 3).",
        "3. Lectura de Defensa: Simulaciones de situaciones de juego donde el jugador debe leer la defensa antes de pasar o driblear."]),
    ("Reducir PF", [
        "1. Defensa Posicional: Drills de movimiento lateral y posicionamiento defensivo sin contacto excesivo.",
        "2. Contención sin Falta: Practicar la defensa de balón, forzando al atacante a ir hacia su mano débil sin cometer falta.",
        "3. Carga Ofensiva vs. Falta Defensiva: Simular situaciones de carga ofensiva para entender cuándo es falta ofensiva y cuándo defensiva."]),
    ("REB", [
        "1. Drill de Box-Out: Practicar bloquear al oponente para asegurar el rebote defensivo y ofensivo.",
        "2. Saltos de Rebote: 30 saltos continuos para rebote, enfocándose en el timing y la posición.",
        "3. Rebote en Tráfico: Ejercicios de rebote con múltiples jugadores simulando situaciones de juego."]),
    ("AST", [
        "1. Drills de Visión de Juego: Ver y reaccionar a los compañeros que cortan, identificar al hombre abierto.",
        "2. Pases de Entrada al Poste: Practicar pases precisos al poste bajo contra defensa."]),
    ("STL", [
        "1. Anticipación de Pase: Drills para leer la ofensiva y anticipar las líneas de pase.",
        "2. Defensa de Balón Activa: Ejercicios para robar el balón sin cometer falta."]),
    ("BLK", [
        "1. Timing de Bloqueo: Practicar el salto y el timing para bloquear tiros sin cometer falta.",
        "2. Defensa de P&R (Pick and Roll): Drills para defender el pick and roll y proteger el aro."]),
    ("MIN", [
        "1. Acondicionamiento Físico: Rutinas de entrenamiento de fuerza y resistencia específicas para baloncesto.",
        "2. Mejora de Habilidades Fundamentales: Trabajar en todas las áreas básicas: dribleo, pase, tiro, defensa individual."]),
    ("GP", [
        "1. Prevención de Lesiones: Rutinas de estiramiento, fortalecimiento de articulaciones y músculos clave.",
        "2. Consistencia en el Rendimiento: Mantener un alto nivel de energía y concentración durante todo el partido y la temporada."]),
    ("GS", [
        "1. Liderazgo en Cancha: Drills de comunicación y toma de decisiones como líder.",
        "2. Habilidades de Iniciador: Enfocarse en el impacto inmediato al inicio del partido y la capacidad de llevar el ritmo."]),
    ("PTS", [
        "1. Drills de Anotación en Transición: Practicar tiros y finalizaciones en contraataque.",
        "2. Ataque al Aro: Drills de penetración y finalización cerca del canasto, incluyendo flotadoras y bandejas de contacto.",
        "3. Creación de Espacio para Tiro: Practicar movimientos para liberarse del defensor y conseguir un buen tiro."])]

  /** The role shown when the player's cluster has none. */
  const UnknownRole := "Rol Desconocido"

  /** The default fraction of the cluster mean below which a statistic is weak. */
  const DefaultMultiplier: real := 0.75

  // ---------------------------------------------------------------------------
  // Inputs

  /** One statistic vector: column name to value (None = NaN). */
  type StatRow = map<string, Option<real>>

  /** One row of the cleaned data with its cluster label. */
  datatype PlayerRow = PlayerRow(
    name: string,     // PLAYER_NAME
    cluster: int,     // CLUSTER
    stats: StatRow,   // the statistic columns
    gp: Option<real>) // the GP cell, read even when GP is not a listed statistic

  /** How a number is printed: with a fixed number of decimals, or as Python's `str`. */
  datatype Style = Fixed(places: nat) | Plain

  /** Number formatting, which the model leaves opaque. */
  type Render = (real, Style) -> string

  // ---------------------------------------------------------------------------
  // Player and role lookup

  /** The position of the first row whose name is `name`, if any. */
  function FirstRow(rows: seq<PlayerRow>, name: string): (i: Option<nat>)
    ensures i.None? <==> forall j :: 0 <= j < |rows| ==> rows[j].name != name
    ensures i.Some? ==> i.value < |rows| && rows[i.value].name == name &&
                        forall j :: 0 <= j < i.value ==> rows[j].name != name
  {
    if rows == [] then None
    else if rows[0].name == name then Some(0)
    else match FirstRow(rows[1..], name)
      case None => None
      case Some(k) => Some(k + 1)
  }

  /** The role assigned to a cluster, or the unknown-role text for a cluster without one. */
  function RoleFor(roles: map<int, string>, cluster: int): (role: string)
    ensures cluster in roles ==> role == roles[cluster]
    ensures cluster !in roles ==> role == UnknownRole
  {
    if cluster in roles then roles[cluster] else UnknownRole
  }

  /** With roles from the role assigner, a player's role is a known label or the fallback. */
  lemma RoleIsLabelOrUnknown(roles: map<int, string>, cluster: int)
    requires forall id :: id in roles ==> roles[id] in RoleAssigner.RoleLabels
    ensures RoleFor(roles, cluster) in RoleAssigner.RoleLabels + {UnknownRole}
    ensures RoleFor(roles, cluster) != RoleAssigner.Undefined
  {
  }

  // ---------------------------------------------------------------------------
  // Comparison table

  /** A float quotient: finite, infinite (non-zero over zero) or NaN. */
  datatype Ratio = Finite(x: real) | PosInf | NegInf | NaN

  /** One line of the comparison table. */
  datatype ComparisonRow = ComparisonRow(
    stat: string,
    player: Option<real>,
    average: Option<real>,
    difference: Option<real>,
    percentage: Ratio)

  /** Player minus mean, and that difference as a percentage of the mean, as floats give them. */
  function Compare(stat: string, p: Option<real>, m: Option<real>): (row: ComparisonRow)
    ensures row.stat == stat && row.player == p && row.average == m
    ensures row.difference.Some? <==> p.Some? && m.Some?
  {
    if p.None? || m.None? then ComparisonRow(stat, p, m, None, NaN)
    else
      var d := p.value - m.value;
      var pct :=
        if m.value != 0.0 then Finite(d / m.value * 100.0)
        else if d > 0.0 then PosInf
        else if d < 0.0 then NegInf
        else NaN;
      ComparisonRow(stat, p, m, Some(d), pct)
  }

  /** The comparison table, one row per statistic column, in column order. */
  function Comparison(stats: seq<string>, player: StatRow, means: StatRow): (table: seq<ComparisonRow>)
    requires forall s :: s in stats ==> s in player && s in means
    ensures |table| == |stats|
    ensures forall i :: 0 <= i < |stats| ==> table[i] == Compare(stats[i], player[stats[i]], means[stats[i]])
  {
    seq(|stats|, i requires 0 <= i < |stats| => Compare(stats[i], player[stats[i]], means[stats[i]]))
  }

  /**
   * What the table says: the difference added back to the mean gives the
   * player's value; a finite percentage is the difference relative to the
   * mean, negative exactly when the player is below a positive mean; a zero
   * mean gives an infinite percentage, or NaN when the player is also zero.
   */
  lemma ComparisonMeaning(stat: string, p: Option<real>, m: Option<real>)
    ensures var row := Compare(stat, p, m);
      && (row.difference.Some? ==> m.value + row.difference.value == p.value)
      && (row.percentage.NaN? <==> p.None? || m.None? || (m.value == 0.0 && p.value == 0.0))
      && (row.percentage.PosInf? <==> p.Some? && m.Some? && m.value == 0.0 && p.value > 0.0)
      && (row.percentage.NegInf? <==> p.Some? && m.Some? && m.value == 0.0 && p.value < 0.0)
      && (row.percentage.Finite? ==>
            m.value != 0.0 && row.percentage.x * m.value == (p.value - m.value) * 100.0)
      && (row.percentage.Finite? && m.value > 0.0 ==> (row.percentage.x < 0.0 <==> p.value < m.value))
  {
    if p.Some? && m.Some? && m.value != 0.0 {
      var d := p.value - m.value;
      assert d / m.value * m.value == d;
      if m.value > 0.0 {
        assert d < 0.0 <==> d / m.value < 0.0;
      }
    }
  }

  // ---------------------------------------------------------------------------
  // Weak-spot rules

  /** A shooting percentage: the statistic's name contains "_PCT". */
  predicate IsPercentage(stat: string)
  {
    Contains(stat, "_PCT")
  }

  /** A statistic where less is better: turnovers or personal fouls. */
  predicate IsInverse(stat: string)
  {
    stat == "TOV" || stat == "PF"
  }

  /** More than ten games played; a NaN never compares greater. */
  predicate PlayedOverTen(gp: Option<real>)
  {
    gp.Some? && gp.value > 10.0
  }

  /** The player is below the given fraction of the cluster mean. */
  predicate BelowThreshold(p: real, m: real, mult: real)
  {
    p < m * mult
  }

  /** Which message a weak spot carries. */
  datatype Kind =
    | Shooting        // "[Necesita mejorar puntería/eficiencia]"
    | Reduce          // "[Reducir <stat>]"
    | Improve         // "[Necesita mejorar <stat>]"
    | ZeroPercentage  // "[Necesita mejorar <stat>]" for a zero percentage against a zero mean

  /** One weak spot: the statistic, its message and the two values compared. */
  datatype Finding = Finding(stat: string, kind: Kind, player: real, mean: real)

  /** The verdict on one statistic. */
  datatype Outcome = Unflagged | Flagged(finding: Finding, projected: real)

  /**
   * One turn of the classification loop: skip a statistic that is missing
   * or NaN on either side, or whose cluster mean is 0; otherwise apply the
   * percentage, the inverse or the standard rule, in that order.
   */
  function Assess(stat: string, player: StatRow, means: StatRow, gp: Option<real>, mult: real): (o: Outcome)
    ensures o.Flagged? ==>
      && stat in player && stat in means && player[stat].Some? && means[stat].Some?
      && o.finding == Finding(stat, o.finding.kind, player[stat].value, means[stat].value)
  {
    if !(stat in player && stat in means) then Unflagged
    else
      if player[stat].None? || means[stat].None? then Unflagged
      else
        var p, m := player[stat].value, means[stat].value;
        if m == 0.0 then
          if p == 0.0 then Unflagged
          else if IsPercentage(stat) && p == 0.0 then Flagged(Finding(stat, ZeroPercentage, p, m), 0.05)
          else Unflagged
        else if IsPercentage(stat) then
          if PlayedOverTen(gp) && m - p > 0.05 then
            Flagged(Finding(stat, Shooting, p, m), Min(p + 0.03, m + 0.01))
          else Unflagged
        else if IsInverse(stat) then
          if p > m * 1.20 && m > 0.0 then
            Flagged(Finding(stat, Reduce, p, m), Max(p * 0.90, m * 0.95))
          else Unflagged
        else if BelowThreshold(p, m, mult) then
          Flagged(Finding(stat, Improve, p, m), Min(p * 1.15, m * 0.95))
        else Unflagged
  }

  /** The weak spots found over `stats`, in column order. */
  function Findings(stats: seq<string>, player: StatRow, means: StatRow, gp: Option<real>, mult: real): (fs: seq<Finding>)
    ensures |fs| <= |stats|
    ensures forall f :: f in fs ==>
              f.stat in stats && Assess(f.stat, player, means, gp, mult).Flagged? &&
              Assess(f.stat, player, means, gp, mult).finding == f
    decreases |stats|
  {
    if stats == [] then []
    else
      var prev := Findings(stats[..|stats| - 1], player, means, gp, mult);
      var stat := stats[|stats| - 1];
      match Assess(stat, player, means, gp, mult)
      case Unflagged => prev
      case Flagged(f, _) => prev + [f]
  }

  /** The projection copy after the loop over `stats`: each weak spot set to its projected value. */
  function Projected(stats: seq<string>, player: StatRow, means: StatRow, gp: Option<real>, mult: real): StatRow
    decreases |stats|
  {
    if stats == [] then player
    else
      var prev := Projected(stats[..|stats| - 1], player, means, gp, mult);
      var stat := stats[|stats| - 1];
      match Assess(stat, player, means, gp, mult)
      case Unflagged => prev
      case Flagged(_, v) => prev[stat := Some(v)]
  }

  /** The projection the analysis reports: the player's own values when nothing is weak. */
  function FinalProjection(stats: seq<string>, player: StatRow, means: StatRow, gp: Option<real>, mult: real): StatRow
  {
    if Findings(stats, player, means, gp, mult) == [] then player
    else Projected(stats, player, means, gp, mult)
  }

  /**
   * The classification loop of `analyze_player_weak_spots`: walks the
   * statistic columns in order, appends each weak spot to the findings and
   * overwrites the statistic in the projection copy; with no weak spot the
   * projection is reset to the player's values.
   */
  method FindWeakSpots(stats: seq<string>, player: StatRow, means: StatRow, gp: Option<real>, mult: real)
    returns (findings: seq<Finding>, projected: StatRow)
    ensures findings == Findings(stats, player, means, gp, mult)
    ensures projected == FinalProjection(stats, player, means, gp, mult)
  {
    findings := [];
    projected := player;
    for k := 0 to |stats|
      invariant findings == Findings(stats[..k], player, means, gp, mult)
      invariant projected == Projected(stats[..k], player, means, gp, mult)
    {
      var stat := stats[k];
      ghost var o := Assess(stat, player, means, gp, mult);
      LoopStep(stats, player, means, gp, mult, k);
      if stat in player && stat in means {
        if player[stat].None? || means[stat].None? {
          ProjectedAt(stats[..k], player, means, gp, mult, stat);
          projected := projected[stat := player[stat]];
        } else {
          var p, m := player[stat].value, means[stat].value;
          if m == 0.0 {
            if p == 0.0 {
              assert o == Unflagged;
            } else if IsPercentage(stat) && p == 0.0 {
              findings := findings + [Finding(stat, ZeroPercentage, p, m)];
              projected := projected[stat := Some(0.05)];
            }
          } else if IsPercentage(stat) {
            if PlayedOverTen(gp) && m - p > 0.05 {
              assert o == Flagged(Finding(stat, Shooting, p, m), Min(p + 0.03, m + 0.01));
              findings := findings + [Finding(stat, Shooting, p, m)];
              projected := projected[stat := Some(Min(p + 0.03, m + 0.01))];
            }
          } else if IsInverse(stat) {
            if p > m * 1.20 && m > 0.0 {
              assert o == Flagged(Finding(stat, Reduce, p, m), Max(p * 0.90, m * 0.95));
              findings := findings + [Finding(stat, Reduce, p, m)];
              projected := projected[stat := Some(Max(p * 0.90, m * 0.95))];
            }
          } else if BelowThreshold(p, m, mult) {
            assert o == Flagged(Finding(stat, Improve, p, m), Min(p * 1.15, m * 0.95));
            findings := findings + [Finding(stat, Improve, p, m)];
            projected := projected[stat := Some(Min(p * 1.15, m * 0.95))];
          }
        }
      }
    }
    assert stats[..|stats|] == stats;
    if findings == [] {
      projected := player;
    }
  }

  /** One more column extends the findings and the projection by that column's verdict. */
  lemma LoopStep(stats: seq<string>, player: StatRow, means: StatRow, gp: Option<real>, mult: real, k: nat)
    requires k < |stats|
    ensures var o := Assess(stats[k], player, means, gp, mult);
      && Findings(stats[..k + 1], player, means, gp, mult) ==
         Findings(stats[..k], player, means, gp, mult) + (if o.Flagged? then [o.finding] else [])
      && Projected(stats[..k + 1], player, means, gp, mult) ==
         (if o.Flagged? then Projected(stats[..k], player, means, gp, mult)[stats[k] := Some(o.projected)]
          else Projected(stats[..k], player, means, gp, mult))
  {
    assert stats[..k + 1][..k] == stats[..k];
  }

  // ---------------------------------------------------------------------------
  // Properties of the rules

  /** A statistic missing on either side, NaN on either side, or with a zero cluster mean is never weak. */
  lemma SkippedNeverFlagged(stat: string, player: StatRow, means: StatRow, gp: Option<real>, mult: real)
    requires !(stat in player && stat in means) || player[stat].None? || means[stat].None? ||
             means[stat].value == 0.0
    ensures Assess(stat, player, means, gp, mult) == Unflagged
  {
  }

  /**
   * The percentage rule: a present `_PCT` statistic with a non-zero mean is
   * weak exactly when the player has more than 10 games and trails the mean
   * by more than 0.05; the projection then is the player's value plus 0.03,
   * which stays strictly below the mean. It never reaches the other rules.
   */
  lemma PercentageRule(stat: string, player: StatRow, means: StatRow, gp: Option<real>, mult: real)
    requires IsPercentage(stat) && stat in player && stat in means
    requires player[stat].Some? && means[stat].Some? && means[stat].value != 0.0
    ensures var o := Assess(stat, player, means, gp, mult);
      && (o.Flagged? <==> PlayedOverTen(gp) && means[stat].value - player[stat].value > 0.05)
      && (o.Flagged? ==>
            o.finding.kind == Shooting &&
            o.projected == player[stat].value + 0.03 &&
            player[stat].value < o.projected < means[stat].value)
  {
  }

  /**
   * The inverse rule (TOV, PF): weak exactly when the player exceeds 120% of
   * a positive mean; the projection, the larger of 90% of the player's value
   * and 95% of the mean, is at least 95% of the mean and below the player's
   * value.
   */
  lemma InverseRule(stat: string, player: StatRow, means: StatRow, gp: Option<real>, mult: real)
    requires IsInverse(stat) && stat in player && stat in means
    requires player[stat].Some? && means[stat].Some? && means[stat].value != 0.0
    ensures var o := Assess(stat, player, means, gp, mult);
      var p, m := player[stat].value, means[stat].value;
      && (o.Flagged? <==> p > m * 1.20 && m > 0.0)
      && (o.Flagged? ==>
            o.finding.kind == Reduce &&
            m * 0.95 <= o.projected < p && p * 0.90 <= o.projected)
  {
    assert !IsPercentage(stat) by {
      NoPercentageIn(stat);
    }
  }

  /** Neither "TOV" nor "PF" contains "_PCT". */
  lemma NoPercentageIn(stat: string)
    requires IsInverse(stat)
    ensures !IsPercentage(stat)
  {
    assert !Contains("PF"[1..], "_PCT");
    assert !Contains("TOV"[2..], "_PCT");
    assert !Contains("TOV"[1..], "_PCT");
  }

  /**
   * The standard rule: weak exactly when the player is below `mult` times the
   * mean. For a non-negative player, a positive mean and `mult` at most 0.95,
   * the projection lies between the player's value and 95% of the mean.
   */
  lemma StandardRule(stat: string, player: StatRow, means: StatRow, gp: Option<real>, mult: real)
    requires !IsPercentage(stat) && !IsInverse(stat) && stat in player && stat in means
    requires player[stat].Some? && means[stat].Some? && means[stat].value != 0.0
    ensures var o := Assess(stat, player, means, gp, mult);
      var p, m := player[stat].value, means[stat].value;
      && (o.Flagged? <==> p < m * mult)
      && (o.Flagged? ==> o.finding.kind == Improve)
      && (o.Flagged? && p >= 0.0 && m > 0.0 && mult <= 0.95 ==> p <= o.projected <= m * 0.95)
  {
    var p, m := player[stat].value, means[stat].value;
    if p < m * mult && m > 0.0 && mult <= 0.95 {
      assert m * mult <= m * 0.95;
    }
  }

  /**
   * The zero-percentage floor of 0.05 is never used: a zero player value
   * against a zero mean is skipped before it, so every weak spot comes from
   * one of the three rules, against a non-zero mean.
   */
  lemma ZeroFloorUnreachable(stat: string, player: StatRow, means: StatRow, gp: Option<real>, mult: real)
    ensures var o := Assess(stat, player, means, gp, mult);
      o.Flagged? ==> o.finding.kind != ZeroPercentage && o.finding.mean != 0.0
  {
  }

  /** Weak spots of a concatenation of columns: those of the first part, then those of the second. */
  lemma {:induction false} FindingsAppend(a: seq<string>, b: seq<string>, player: StatRow, means: StatRow, gp: Option<real>, mult: real)
    ensures Findings(a + b, player, means, gp, mult) ==
            Findings(a, player, means, gp, mult) + Findings(b, player, means, gp, mult)
    decreases |b|
  {
    if b == [] {
      assert a + b == a;
    } else {
      var b' := b[..|b| - 1];
      assert (a + b)[..|a + b| - 1] == a + b';
      FindingsAppend(a, b', player, means, gp, mult);
    }
  }

  /** A column is a weak spot exactly when the rules flag it: every flagged column has a finding. */
  lemma {:induction false} FlaggedIsFound(stats: seq<string>, player: StatRow, means: StatRow, gp: Option<real>, mult: real, i: nat)
    requires i < |stats|
    requires Assess(stats[i], player, means, gp, mult).Flagged?
    ensures Assess(stats[i], player, means, gp, mult).finding in Findings(stats, player, means, gp, mult)
    decreases |stats|
  {
    if i < |stats| - 1 {
      var prefix := stats[..|stats| - 1];
      assert prefix[i] == stats[i];
      FlaggedIsFound(prefix, player, means, gp, mult, i);
    }
  }

  /**
   * The projection copy keeps the player's keys; a column holds its projected
   * value when it is a weak spot and the player's own value otherwise.
   */
  lemma {:induction false} ProjectedAt(stats: seq<string>, player: StatRow, means: StatRow, gp: Option<real>, mult: real, s: string)
    ensures var pr := Projected(stats, player, means, gp, mult);
      var o := Assess(s, player, means, gp, mult);
      && pr.Keys == player.Keys
      && (s in player ==> pr[s] == if s in stats && o.Flagged? then Some(o.projected) else player[s])
    decreases |stats|
  {
    if stats != [] {
      var prefix := stats[..|stats| - 1];
      ProjectedAt(prefix, player, means, gp, mult, s);
      assert stats == prefix + [stats[|stats| - 1]];
      assert s in stats <==> s in prefix || s == stats[|stats| - 1];
    }
  }

  /** With no weak spot the projection copy is untouched, so resetting it changes nothing. */
  lemma NoFindingsNoChange(stats: seq<string>, player: StatRow, means: StatRow, gp: Option<real>, mult: real)
    requires Findings(stats, player, means, gp, mult) == []
    ensures FinalProjection(stats, player, means, gp, mult) == player
    ensures Projected(stats, player, means, gp, mult) == player
  {
    var pr := Projected(stats, player, means, gp, mult);
    forall s | s in player
      ensures pr[s] == player[s]
    {
      ProjectedAt(stats, player, means, gp, mult, s);
      if s in stats && Assess(s, player, means, gp, mult).Flagged? {
        var i :| 0 <= i < |stats| && stats[i] == s;
        FlaggedIsFound(stats, player, means, gp, mult, i);
      }
    }
    ProjectedAt(stats, player, means, gp, mult, "");
  }

  /** Every column that is not a weak spot keeps the player's value in the reported projection. */
  lemma UnflaggedKeepsValue(stats: seq<string>, player: StatRow, means: StatRow, gp: Option<real>, mult: real, s: string)
    requires s in player
    requires s !in stats || Assess(s, player, means, gp, mult).Unflagged?
    ensures s in FinalProjection(stats, player, means, gp, mult)
    ensures FinalProjection(stats, player, means, gp, mult)[s] == player[s]
  {
    ProjectedAt(stats, player, means, gp, mult, s);
  }

  // ---------------------------------------------------------------------------
  // Descriptions and drills

  /** The text of a weak spot, as the analysis prints it. */
  function Describe(f: Finding, render: Render): (text: string)
    ensures f.stat + ": " <= text
  {
    match f.kind
    case Shooting =>
      f.stat + ": " + render(f.player, Fixed(3)) + " (Promedio Clúster: " + render(f.mean, Fixed(3)) +
      ") - [Necesita mejorar puntería/eficiencia]"
    case Reduce =>
      f.stat + ": " + render(f.player, Plain) + " (Promedio Clúster: " + render(f.mean, Fixed(2)) +
      ") - [Reducir " + f.stat + "]"
    case Improve =>
      f.stat + ": " + render(f.player, Plain) + " (Promedio Clúster: " + render(f.mean, Fixed(2)) +
      ") - [Necesita mejorar " + f.stat + "]"
    case ZeroPercentage =>
      f.stat + ": " + render(f.player, Fixed(3)) + " (Promedio Clúster: " + render(f.mean, Fixed(3)) +
      ") - [Necesita mejorar " + f.stat + "]"
  }

  /** The text before the first colon, or all of it when there is none. */
  function Area(s: string): (a: string)
    ensures a <= s && ':' !in a
    ensures |a| < |s| ==> s[|a|] == ':'
  {
    if s == [] || s[0] == ':' then [] else [s[0]] + Area(s[1..])
  }

  /** The area of a text that starts with a colon-free word and a colon is that word. */
  lemma {:induction false} AreaOfPrefix(word: string, rest: string)
    requires ':' !in word
    ensures Area(word + ":" + rest) == word
  {
    if word != [] {
      assert (word + ":" + rest)[1..] == word[1..] + ":" + rest;
      AreaOfPrefix(word[1..], rest);
    }
  }

  /** The area of a weak spot's description is its statistic. */
  lemma AreaIsStat(f: Finding, render: Render)
    requires ':' !in f.stat
    ensures Area(Describe(f, render)) == f.stat
  {
    var rest := Describe(f, render)[|f.stat| + 1..];
    assert Describe(f, render) == f.stat + ":" + rest;
    AreaOfPrefix(f.stat, rest);
  }

  /** The key's lower-cased form occurs in the lower-cased `text`. */
  predicate KeyIn(key: string, text: string)
  {
    Contains(Lower(text), Lower(key))
  }

  /** The position of the first entry, in table order, whose key occurs in `text`. */
  function FirstKey(table: Table, text: string): (k: Option<nat>)
    ensures k.Some? ==> k.value < |table| && KeyIn(table[k.value].0, text)
    ensures k.None? <==> forall i :: 0 <= i < |table| ==> !KeyIn(table[i].0, text)
  {
    if table == [] then None
    else if KeyIn(table[0].0, text) then Some(0)
    else match FirstKey(table[1..], text)
      case None => None
      case Some(k) => Some(k + 1)
  }

  /** First match wins: the entry chosen is the earliest whose key occurs, and no earlier key occurs. */
  lemma {:induction false} FirstKeyIsEarliest(table: Table, text: string, i: nat)
    ensures FirstKey(table, text) == Some(i) <==>
            i < |table| && KeyIn(table[i].0, text) &&
            forall j :: 0 <= j < i ==> !KeyIn(table[j].0, text)
  {
    if table != [] && i > 0 {
      FirstKeyIsEarliest(table[1..], text, i - 1);
      if FirstKey(table, text) != Some(i) && i < |table| && KeyIn(table[i].0, text) {
        assert table[1..][i - 1] == table[i];
        assert forall j :: 0 <= j < i - 1 ==> table[1..][j] == table[j + 1];
      }
    }
  }

  /** The drill table has eleven distinct keys, each with at least two drills. */
  lemma DrillTableShape()
    ensures |DrillTable| == 11
    ensures forall i, j :: 0 <= i < j < |DrillTable| ==> DrillTable[i].0 != DrillTable[j].0
    ensures forall i :: 0 <= i < |DrillTable| ==> |DrillTable[i].1| >= 2
  {
  }

  /** The suggestion for one weak spot: its area and the drills of the first key found, if any. */
  datatype Suggestion = Suggestion(area: string, drills: Option<seq<string>>)

  /** The suggestion for one description (None: "No hay sugerencias detalladas disponibles"). */
  function Suggest(table: Table, desc: string): (s: Suggestion)
    ensures s.area == Area(desc)
    ensures s.drills.Some? <==> exists i :: 0 <= i < |table| && KeyIn(table[i].0, desc)
    ensures s.drills.Some? ==> exists i :: 0 <= i < |table| && s.drills.value == table[i].1 &&
                                          FirstKey(table, desc) == Some(i)
  {
    match FirstKey(table, desc)
    case Some(k) => Suggestion(Area(desc), Some(table[k].1))
    case None => Suggestion(Area(desc), None)
  }

  /** The search through the drill keys for one description, stopping at the first match. */
  method LookupDrillKey(table: Table, desc: string) returns (found: Option<nat>)
    ensures found == FirstKey(table, desc)
  {
    found := None;
    var i := 0;
    while i < |table|
      invariant 0 <= i <= |table|
      invariant forall j :: 0 <= j < i ==> !KeyIn(table[j].0, desc)
    {
      if Contains(Lower(desc), Lower(table[i].0)) {
        found := Some(i);
        FirstKeyIsEarliest(table, desc, i);
        return;
      }
      i := i + 1;
    }
  }

  /** The suggestion loop: one suggestion per weak-spot description, in order. */
  method SuggestDrills(table: Table, descs: seq<string>) returns (suggestions: seq<Suggestion>)
    ensures |suggestions| == |descs|
    ensures forall i :: 0 <= i < |descs| ==> suggestions[i] == Suggest(table, descs[i])
  {
    suggestions := [];
    for i := 0 to |descs|
      invariant |suggestions| == i
      invariant forall j :: 0 <= j < i ==> suggestions[j] == Suggest(table, descs[j])
    {
      var key := LookupDrillKey(table, descs[i]);
      var drills: Option<seq<string>> := None;
      if key.Some? {
        drills := Some(table[key.value].1);
      }
      suggestions := suggestions + [Suggestion(Area(descs[i]), drills)];
    }
  }

  /** A shooting weak spot always gets the shooting drills, the first entry of the table. */
  lemma ShootingGetsShootingDrills(f: Finding, render: Render)
    requires f.kind == Shooting
    ensures FirstKey(DrillTable, Describe(f, render)) == Some(0)
    ensures Suggest(DrillTable, Describe(f, render)).drills == Some(DrillTable[0].1)
  {
    var needle := "puntería/eficiencia";
    var desc := Describe(f, render);
    var before := f.stat + ": " + render(f.player, Fixed(3)) + " (Promedio Clúster: " +
                  render(f.mean, Fixed(3)) + ") - [Necesita mejorar ";
    assert desc == before + needle + "]";
    LowerConcat(before + needle, "]");
    LowerConcat(before, needle);
    assert Lower(needle) == needle;
    InfixContained(Lower(before), needle, Lower("]"));
    assert DrillTable[0].0 == needle;
    FirstKeyIsEarliest(DrillTable, desc, 0);
  }

  /** A TOV or PF weak spot always gets drills: its message holds "Reducir TOV" or "Reducir PF". */
  lemma ReduceGetsDrills(f: Finding, render: Render)
    requires f.kind == Reduce && IsInverse(f.stat)
    ensures Suggest(DrillTable, Describe(f, render)).drills.Some?
  {
    var desc := Describe(f, render);
    var before := f.stat + ": " + render(f.player, Plain) + " (Promedio Clúster: " +
                  render(f.mean, Fixed(2)) + ") - [";
    var key := "Reducir " + f.stat;
    assert desc == before + key + "]";
    LowerConcat(before + key, "]");
    LowerConcat(before, key);
    InfixContained(Lower(before), Lower(key), Lower("]"));
    assert key == DrillTable[1].0 || key == DrillTable[2].0;
  }

  // ---------------------------------------------------------------------------
  // The whole analysis

  /** What the analysis of one player produces. */
  datatype Analysis = Analysis(
    cluster: int,
    role: string,
    comparison: seq<ComparisonRow>,
    findings: seq<Finding>,
    descriptions: seq<string>,
    projected: StatRow,
    suggestions: seq<Suggestion>)

  /** Every row has every statistic column, and its cluster has a row of means with them too. */
  predicate WellFormed(rows: seq<PlayerRow>, means: map<int, StatRow>, stats: seq<string>)
  {
    forall i :: 0 <= i < |rows| ==>
      && rows[i].cluster in means
      && (forall s :: s in stats ==> s in rows[i].stats && s in means[rows[i].cluster])
  }

  /**
   * `analyze_player_weak_spots`: None when no row has the player's name;
   * otherwise the analysis of the first such row against the mean row of
   * its cluster.
   */
  method AnalyzePlayerWeakSpots(
    name: string, rows: seq<PlayerRow>, means: map<int, StatRow>, roles: map<int, string>,
    stats: seq<string>, mult: real, render: Render)
    returns (r: Option<Analysis>)
    requires WellFormed(rows, means, stats)
    ensures r.None? <==> forall i :: 0 <= i < |rows| ==> rows[i].name != name
    ensures r.Some? ==>
      var row := rows[FirstRow(rows, name).value];
      var avg := means[row.cluster];
      && r.value.cluster == row.cluster
      && r.value.role == RoleFor(roles, row.cluster)
      && r.value.comparison == Comparison(stats, row.stats, avg)
      && r.value.findings == Findings(stats, row.stats, avg, row.gp, mult)
      && r.value.projected == FinalProjection(stats, row.stats, avg, row.gp, mult)
      && |r.value.descriptions| == |r.value.findings| == |r.value.suggestions|
      && (forall i :: 0 <= i < |r.value.findings| ==>
            r.value.descriptions[i] == Describe(r.value.findings[i], render) &&
            r.value.suggestions[i] == Suggest(DrillTable, r.value.descriptions[i]))
  {
    var first := FirstRow(rows, name);
    if first.None? {
      return None;
    }
    var row := rows[first.value];
    var avg := means[row.cluster];
    var role := RoleFor(roles, row.cluster);
    var comparison := Comparison(stats, row.stats, avg);
    var findings, projected := FindWeakSpots(stats, row.stats, avg, row.gp, mult);
    var descriptions := seq(|findings|, i requires 0 <= i < |findings| => Describe(findings[i], render));
    var suggestions := SuggestDrills(DrillTable, descriptions);
    r := Some(Analysis(row.cluster, role, comparison, findings, descriptions, projected, suggestions));
  }

  // ---------------------------------------------------------------------------
  // Worked cases

  /** "FG_PCT" is a percentage statistic. */
  lemma FieldGoalPercentageIsPercentage()
    ensures IsPercentage("FG_PCT")
  {
    InfixContained("FG", "_PCT", "");
    assert "FG" + "_PCT" + "" == "FG_PCT";
  }

  /**
   * A player shooting 0.30 from the field against a cluster mean of 0.45,
   * with 50 games, and committing 180 turnovers against a mean of 100, while
   * both player and cluster have 0 blocks: the shooting and the turnovers are
   * weak spots, projected to 0.33 and 162; the blocks are skipped.
   */
  lemma WorkedCase()
    ensures var player := map["FG_PCT" := Some(0.30), "TOV" := Some(180.0), "BLK" := Some(0.0)];
      var means := map["FG_PCT" := Some(0.45), "TOV" := Some(100.0), "BLK" := Some(0.0)];
      var stats := ["FG_PCT", "TOV", "BLK"];
      && Findings(stats, player, means, Some(50.0), DefaultMultiplier) ==
           [Finding("FG_PCT", Shooting, 0.30, 0.45), Finding("TOV", Reduce, 180.0, 100.0)]
      && FinalProjection(stats, player, means, Some(50.0), DefaultMultiplier) ==
           map["FG_PCT" := Some(0.33), "TOV" := Some(162.0), "BLK" := Some(0.0)]
  {
    var player := map["FG_PCT" := Some(0.30), "TOV" := Some(180.0), "BLK" := Some(0.0)];
    var means := map["FG_PCT" := Some(0.45), "TOV" := Some(100.0), "BLK" := Some(0.0)];
    var stats := ["FG_PCT", "TOV", "BLK"];
    var gp, mult := Some(50.0), DefaultMultiplier;
    FieldGoalPercentageIsPercentage();
    NoPercentageIn("TOV");
    assert Assess("FG_PCT", player, means, gp, mult) ==
           Flagged(Finding("FG_PCT", Shooting, 0.30, 0.45), 0.33);
    assert Assess("TOV", player, means, gp, mult) ==
           Flagged(Finding("TOV", Reduce, 180.0, 100.0), 162.0);
    assert Assess("BLK", player, means, gp, mult) == Unflagged;
    LoopStep(stats, player, means, gp, mult, 0);
    LoopStep(stats, player, means, gp, mult, 1);
    LoopStep(stats, player, means, gp, mult, 2);
    assert stats[..0] == [] && stats[..3] == stats;
    assert player["FG_PCT" := Some(0.33)]["TOV" := Some(162.0)] ==
           map["FG_PCT" := Some(0.33), "TOV" := Some(162.0), "BLK" := Some(0.0)];
  }

  // ---------------------------------------------------------------------------
  // Facts about the tables

  /**
   * Every clustering column has a display name, no clustering column is
   * listed twice, and the rules read only clustering columns.
   */
  lemma TablesCoverColumns()
    ensures forall s :: s in ClusteringStats ==> s in StatNames
    ensures forall i, j :: 0 <= i < j < |ClusteringStats| ==> ClusteringStats[i] != ClusteringStats[j]
    ensures forall s :: s in RoleAssigner.RoleStats ==> s in ClusteringStats
  {
  }
}
