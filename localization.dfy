/**
 * The translation tables and the lookup `t` (utils/localization.ts).
 * `formatCurrency` is not part of this model.
 */
module Localization {
  import opened Wrappers
  import opened Types

  /** The keys of the tables, in the order the tables list them. */
  const KEYS: seq<string> := [
    "dashboard", "marketplace", "events", "community", "settings",
    "upgrade", "planNew", "budgetOverview", "culturalCalendar", "totalBudget",
    "spent", "remaining", "logExpense", "vendors", "tasks",
    "guests", "immersiveView", "liveAnalysis", "welcome", "aiTip"
  ]

  const EN_VALUES: seq<string> := [
    "Dashboard",
    "Marketplace",
    "My Events",
    "Community",
    "Settings",
    "Upgrade to Pro",
    "Plan New Event",
    "Budget Overview",
    "Cultural Calendar",
    "Total Budget",
    "Spent",
    "Remaining",
    "Log Expense",
    "Vendors",
    "Tasks",
    "Guests",
    "Immersive View",
    "Live AI Analysis",
    "Namaste",
    "AI Tip"
  ]

  const HI_VALUES: seq<string> := [
    "डैशबोर्ड",
    "बाज़ार",
    "मेरे कार्यक्रम",
    "समुदाय",
    "सेटिंग्स",
    "प्रो में अपग्रेड करें",
    "नया कार्यक्रम",
    "बजट अवलोकन",
    "सांस्कृतिक कैलेंडर",
    "कुल बजट",
    "खर्च",
    "शेष",
    "खर्च जोड़ें",
    "विक्रेता",
    "कार्य",
    "अतिथि",
    "इमर्सिव दृश्य",
    "लाइव एआई विश्लेषण",
    "नमस्ते",
    "एआई सुझाव"
  ]

  const ES_VALUES: seq<string> := [
    "Tablero",
    "Mercado",
    "Mis Eventos",
    "Comunidad",
    "Ajustes",
    "Mejorar a Pro",
    "Planear Nuevo",
    "Resumen de Presupuesto",
    "Calendario Cultural",
    "Presupuesto Total",
    "Gastado",
    "Restante",
    "Registrar Gasto",
    "Vendedores",
    "Tareas",
    "Invitados",
    "Vista Inmersiva",
    "Análisis IA en Vivo",
    "Hola",
    "Consejo IA"
  ]

  /** The object literal `{ ks[0]: vs[0], ... }`. */
  function Zip(ks: seq<string>, vs: seq<string>): (m: map<string, string>)
    requires |ks| == |vs|
    ensures m.Keys == set k | k in ks
    ensures forall k :: k in m ==> m[k] in vs
    decreases |ks|
  {
    if ks == [] then map[]
    else
      var n := |ks| - 1;
      var m := Zip(ks[..n], vs[..n]);
      assert forall k :: k in m ==> m[k] in vs;
      m[ks[n] := vs[n]]
  }

  /** A key that is not repeated later maps to its own value. */
  lemma {:induction false} ZipAt(ks: seq<string>, vs: seq<string>, i: nat)
    requires |ks| == |vs| && i < |ks|
    requires forall j :: i < j < |ks| ==> ks[j] != ks[i]
    ensures Zip(ks, vs)[ks[i]] == vs[i]
    decreases |ks|
  {
    var n := |ks| - 1;
    if i < n {
      assert ks[..n][i] == ks[i] && vs[..n][i] == vs[i];
      ZipAt(ks[..n], vs[..n], i);
      assert ks[n] != ks[i];
    }
  }

  function Values(lang: Language): seq<string> {
    match lang
    case En => EN_VALUES
    case Hi => HI_VALUES
    case Es => ES_VALUES
  }

  function Table(lang: Language): map<string, string> {
    Zip(KEYS, Values(lang))
  }

  /**
   * `t(key, lang)`: the entry of the language's table when it is there and
   * non-empty, else the English entry; None stands for `undefined`.
   */
  function T(key: string, lang: Language): (r: Option<string>)
    ensures r.Some? ==> r.value != "" || (key in Table(En) && r.value == Table(En)[key])
    ensures r.None? ==> key !in Table(En)
  {
    var table := Table(lang);
    if key in table && table[key] != "" then Some(table[key])
    else if key in Table(En) then Some(Table(En)[key])
    else None
  }

  /** The three tables define the same twenty keys, each with a non-empty entry. */
  lemma TablesAgreeOnKeys()
    ensures |KEYS| == 20
    ensures forall lang: Language :: Table(lang).Keys == set k | k in KEYS
    ensures forall lang: Language, k :: k in Table(lang) ==> Table(lang)[k] != ""
  {
    assert forall i :: 0 <= i < 20 ==> EN_VALUES[i] != "" && HI_VALUES[i] != "" && ES_VALUES[i] != "";
  }

  /** No key is listed twice. */
  lemma KeysDistinct()
    ensures forall i, j :: 0 <= i < j < |KEYS| ==> KEYS[i] != KEYS[j]
  {
  }

  /** For every key of the tables the fallback never fires: each language reads its own entry. */
  lemma TranslationUsesOwnTable(i: nat, lang: Language)
    requires i < |KEYS|
    ensures T(KEYS[i], lang) == Some(Values(lang)[i])
  {
    TablesAgreeOnKeys();
    KeysDistinct();
    ZipAt(KEYS, Values(lang), i);
  }

  /** A key missing from English is missing everywhere and translates to undefined. */
  lemma UnknownKeyIsUndefined(key: string, lang: Language)
    requires key !in Table(En)
    ensures T(key, lang) == None
  {
    TablesAgreeOnKeys();
  }

  lemma SampleTranslations()
    ensures T("dashboard", En) == Some("Dashboard") && T("welcome", En) == Some("Namaste")
    ensures T("dashboard", Hi) == Some("डैशबोर्ड")
    ensures T("dashboard", Es) == Some("Tablero")
  {
    TranslationUsesOwnTable(0, En);
    TranslationUsesOwnTable(18, En);
    TranslationUsesOwnTable(0, Hi);
    TranslationUsesOwnTable(0, Es);
  }
}
