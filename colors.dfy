// The colour tables of src/lib/constants/colors.js and getOrgColor.

module Colors {

  const StatusColors: map<string, string> := map[
    "active" := "bg-emerald-100 text-emerald-700 dark:bg-emerald-900/30 dark:text-emerald-400",
    "pending" := "bg-amber-100 text-amber-700 dark:bg-amber-900/30 dark:text-amber-400",
    "inactive" := "bg-slate-100 text-slate-600 dark:bg-slate-700 dark:text-slate-400",
    "signed" := "bg-emerald-100 text-emerald-700 dark:bg-emerald-900/30 dark:text-emerald-400",
    "review" := "bg-blue-100 text-blue-700 dark:bg-blue-900/30 dark:text-blue-400",
    "paid" := "bg-emerald-100 text-emerald-700 dark:bg-emerald-900/30 dark:text-emerald-400",
    "overdue" := "bg-red-100 text-red-700 dark:bg-red-900/30 dark:text-red-400",
    "draft" := "bg-slate-100 text-slate-600 dark:bg-slate-700 dark:text-slate-400",
    "forming" := "bg-purple-100 text-purple-700 dark:bg-purple-900/30 dark:text-purple-400",
    "running" := "bg-blue-100 text-blue-700 dark:bg-blue-900/30 dark:text-blue-400",
    "queued" := "bg-slate-100 text-slate-600 dark:bg-slate-700 dark:text-slate-400",
    "completed" := "bg-emerald-100 text-emerald-700 dark:bg-emerald-900/30 dark:text-emerald-400",
    "failed" := "bg-red-100 text-red-700 dark:bg-red-900/30 dark:text-red-400"
  ]

  const TierColors: map<string, string> := map[
    "Premier" := "bg-amber-100 text-amber-700 dark:bg-amber-900/30 dark:text-amber-400",
    "General" := "bg-blue-100 text-blue-700 dark:bg-blue-900/30 dark:text-blue-400",
    "Associate" := "bg-slate-100 text-slate-600 dark:bg-slate-700 dark:text-slate-400"
  ]

  const OrgColors: map<string, string> := map[
    "RedHat" := "#e61949",
    "NVIDIA" := "#76b900",
    "Intel" := "#0071c5",
    "Dell" := "#007db8",
    "Qualcomm" := "#3253dc"
  ]

  const FallbackColor: string := "#64748b"

  /** `table[org] || '#64748b'`: a missing or empty entry falls back. */
  function OrgColorIn(table: map<string, string>, org: string): (r: string)
    ensures r != ""
    ensures org in table && table[org] != "" ==> r == table[org]
    ensures org !in table ==> r == FallbackColor
  {
    if org in table && table[org] != "" then table[org] else FallbackColor
  }

  /** getOrgColor. */
  function OrgColor(org: string): string {
    OrgColorIn(OrgColors, org)
  }

  /** The five listed organisations get their own colour, any other the fallback. */
  lemma OrgColorTable(org: string)
    ensures org == "NVIDIA" ==> OrgColor(org) == "#76b900"
    ensures org == "RedHat" ==> OrgColor(org) == "#e61949"
    ensures org == "Intel" ==> OrgColor(org) == "#0071c5"
    ensures org == "Dell" ==> OrgColor(org) == "#007db8"
    ensures org == "Qualcomm" ==> OrgColor(org) == "#3253dc"
    ensures org !in {"RedHat", "NVIDIA", "Intel", "Dell", "Qualcomm"} ==> OrgColor(org) == FallbackColor
  {
  }
}
