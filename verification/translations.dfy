/**
 * `pkg/translations`: the message catalogue of the welcome page, one map per
 * language, and the lookup that falls back to English.
 */
module Translations {
  /** English texts. */
  const En: map<string, string> := map[
    "welcome_title" := "Welcome to EmbryGo!",
    "welcome_message" := "This is a minimal web application built with the EmbryGo stack.",
    "utilities_title" := "Core Technologies & Features Status:",
    "go_backend" := "Go Backend",
    "fiber_framework" := "Fiber Web Framework",
    "blitzkit_server" := "BlitzKit Server Layer",
    "templ_templating" := "Templ (Type-Safe HTML)",
    "htmx" := "HTMX (Dynamic HTML)",
    "tailwind_css" := "Tailwind CSS",
    "daisy_ui" := "DaisyUI (Tailwind Components)",
    "heroicons_generator" := "Heroicons (templ-heroicons-generator)",
    "slog_logging" := "Slog (Structured Logging)",
    "air_live_reload" := "Air (Live Reload - Dev)",
    "footer_text" := "EmbryGo Starter Project",
    "current_year" := "2024",
    "status_ok" := "OK",
    "status_error" := "Error",
    "status_not_found" := "Not Found",
    "status_not_found_or_disabled" := "Not Found / Disabled",
    "status_config_issue" := "Config Issue",
    "status_check_failed" := "Check Failed",
    "status_disabled_dev_mode" := "Disabled (Dev Mode)",
    "status_disabled_prod_mode" := "Disabled (Prod Mode)",
    "status_active" := "Active",
    "status_inactive" := "Inactive"
  ]

  /** French texts. */
  const Fr: map<string, string> := map[
    "welcome_title" := "Bienvenue sur EmbryGo !",
    "welcome_message" := "Ceci est une application web minimale construite avec la stack EmbryGo.",
    "utilities_title" := "Statut des Technologies & Fonctionnalités Clés :",
    "go_backend" := "Backend Go",
    "fiber_framework" := "Framework Web Fiber",
    "blitzkit_server" := "Couche Serveur BlitzKit",
    "templ_templating" := "Templ (HTML Typé)",
    "htmx" := "HTMX (HTML Dynamique)",
    "tailwind_css" := "Tailwind CSS",
    "daisy_ui" := "DaisyUI (Composants Tailwind)",
    "heroicons_generator" := "Heroicons (templ-heroicons-generator)",
    "slog_logging" := "Slog (Journalisation Structurée)",
    "air_live_reload" := "Air (Rechargement à Chaud - Dev)",
    "footer_text" := "Projet de Démarrage EmbryGo",
    "current_year" := "2024",
    "status_ok" := "OK",
    "status_error" := "Erreur",
    "status_not_found" := "Non Trouvé",
    "status_not_found_or_disabled" := "Non Trouvé / Désactivé",
    "status_config_issue" := "Problème Config",
    "status_check_failed" := "Échec Vérif.",
    "status_disabled_dev_mode" := "Désactivé (Mode Dev)",
    "status_disabled_prod_mode" := "Désactivé (Mode Prod)",
    "status_active" := "Actif",
    "status_inactive" := "Inactif"
  ]

  /** `TranslationsMap`, keyed by language code. */
  const Catalogue: map<string, map<string, string>> := map["en" := En, "fr" := Fr]

  /** The keys both catalogues define, in source order. */
  const MessageKeys: seq<string> := [
    "welcome_title",
    "welcome_message",
    "utilities_title",
    "go_backend",
    "fiber_framework",
    "blitzkit_server",
    "templ_templating",
    "htmx",
    "tailwind_css",
    "daisy_ui",
    "heroicons_generator",
    "slog_logging",
    "air_live_reload",
    "footer_text",
    "current_year",
    "status_ok",
    "status_error",
    "status_not_found",
    "status_not_found_or_disabled",
    "status_config_issue",
    "status_check_failed",
    "status_disabled_dev_mode",
    "status_disabled_prod_mode",
    "status_active",
    "status_inactive"
  ]

  /** `GetTranslations`: the catalogue of a known language, English for any other. */
  function GetTranslations(lang: string): (r: map<string, string>)
    ensures r == En || r == Fr
    ensures r == Fr <==> lang == "fr"
    ensures r.Keys == En.Keys
  {
    SameKeys();
    assert En["status_inactive"] != Fr["status_inactive"];
    if lang in Catalogue then Catalogue[lang] else Catalogue["en"]
  }

  /** An unknown language reads the English catalogue. */
  lemma UnknownLanguageFallsBack(lang: string)
    requires lang != "en" && lang != "fr"
    ensures GetTranslations(lang) == GetTranslations("en") == En
  {
  }

  lemma SameKeys()
    ensures En.Keys == Fr.Keys
  {
  }

  lemma KeysListed()
    ensures forall i :: 0 <= i < |MessageKeys| ==> MessageKeys[i] in En
  {
  }

  lemma KeysDistinct()
    ensures forall i, j :: 0 <= i < j < |MessageKeys| ==> MessageKeys[i] != MessageKeys[j]
  {
  }

  lemma KeysExactly()
    ensures En.Keys == set k | k in MessageKeys
  {
  }

  /** A sequence without repetitions has as many distinct elements as entries. */
  lemma {:induction false} DistinctCount(s: seq<string>)
    requires forall i, j :: 0 <= i < j < |s| ==> s[i] != s[j]
    ensures |set k | k in s| == |s|
  {
    if s != [] {
      DistinctCount(s[1..]);
      assert (set k | k in s) == {s[0]} + (set k | k in s[1..]);
      assert s[0] !in (set k | k in s[1..]);
    }
  }

  /** "en" and "fr" define the same 25 keys, those of `MessageKeys`. */
  lemma CataloguesHave25Keys()
    ensures En.Keys == Fr.Keys == set k | k in MessageKeys
    ensures |En.Keys| == |Fr.Keys| == 25
  {
    SameKeys();
    KeysExactly();
    KeysDistinct();
    DistinctCount(MessageKeys);
  }
}
