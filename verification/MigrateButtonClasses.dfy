/** The class token rewriter of the button migration (scripts/migrate-button-classes.ts): keep what the
    shared button class does not cover, then restate other sizes as important overrides. */
module MigrateButtonClasses {
  import opened Collections
  import opened Strings

  datatype Kind = Primary | Secondary

  const PRIMARY_DROP: set<string> := {
    "inline-flex", "flex", "items-center", "justify-center", "rounded-md", "rounded", "bg-slate-900", "px-3.5",
    "px-3", "px-4", "px-2.5", "px-2", "py-2", "py-1.5", "py-1", "py-0.5", "text-sm", "text-xs", "font-medium",
    "text-white", "transition", "hover:bg-slate-800", "hover:bg-slate-700", "cursor-pointer",
    "disabled:cursor-not-allowed", "disabled:opacity-50", "disabled:opacity-60", "disabled:bg-slate-300" }

  const SECONDARY_DROP: set<string> := {
    "inline-flex", "flex", "items-center", "justify-center", "rounded-md", "rounded", "border", "border-slate-300",
    "bg-white", "px-3.5", "px-3", "px-2", "py-2", "py-1.5", "py-0.5", "text-sm", "text-xs", "text-[11px]",
    "font-medium", "text-slate-700", "text-slate-800", "text-slate-900", "transition", "hover:bg-slate-50",
    "hover:border-slate-400", "hover:text-slate-900", "cursor-pointer", "shadow-sm", "disabled:cursor-not-allowed",
    "disabled:opacity-50", "disabled:opacity-60", "disabled:shadow-none" }

  const COVERED: set<string> := {
    "hover:bg-slate-50", "hover:bg-slate-800", "hover:bg-slate-700", "hover:border-slate-400",
    "hover:text-slate-900", "disabled:opacity-60", "disabled:opacity-50", "disabled:cursor-not-allowed",
    "disabled:shadow-none" }

  const DEFAULT_SIZES: set<string> := { "px-3.5", "py-2", "text-sm" }

  /** The whole-word and the open-ended alternatives of the layout pattern. */
  const LAYOUT_WORDS: set<string> := {
    "w-full", "w-fit", "flex-1", "shrink-0", "block", "hidden", "sm:block", "text-xs", "text-sm", "text-[11px]",
    "underline", "shadow-sm", "disabled:opacity-60", "disabled:opacity-50", "disabled:cursor-not-allowed",
    "disabled:shadow-none" }

  const LAYOUT_STEMS: set<string> := {
    "mt-", "mb-", "ml-", "mr-", "mx-", "my-", "sm:col-span-", "col-span-", "self-", "gap-", "justify-", "items-",
    "min-w-", "max-w-", "!px-", "!py-", "!text-", "decoration-", "underline-offset-", "disabled:border-",
    "disabled:bg-", "disabled:text-" }

  const KEPT_PREFIXES: set<string> := {
    "sm:", "mt-", "mb-", "w-", "min-", "max-", "self-", "col-", "disabled:", "hover:", "!", "decoration-",
    "underline-offset-" }

  predicate StartsWith(t: string, prefix: string) {
    prefix <= t
  }

  predicate Digit(c: char) { '0' <= c <= '9' }

  /** `stem` followed by a digit, or by a digit, a point and a digit. */
  predicate StemAndSize(t: string, stem: string) {
    && StartsWith(t, stem)
    && var rest := t[|stem|..];
       || (|rest| == 1 && Digit(rest[0]))
       || (|rest| == 3 && Digit(rest[0]) && rest[1] == '.' && Digit(rest[2]))
  }

  predicate StemAndMore(t: string) {
    exists stem :: stem in LAYOUT_STEMS && StartsWith(t, stem) && |t| > |stem|
                   && forall c :: c in t[|stem|..] ==> !IsSpace(c)
  }

  predicate LayoutKeep(t: string) {
    || t in LAYOUT_WORDS
    || StemAndMore(t)
    || StemAndSize(t, "px-") || StemAndSize(t, "py-")
  }

  predicate Layout(t: string) {
    LayoutKeep(t) || t == "underline" || exists p :: p in KEPT_PREFIXES && StartsWith(t, p)
  }

  predicate Dropped(kind: Kind, t: string) {
    match kind
    case Primary => t in PRIMARY_DROP
    case Secondary => t in SECONDARY_DROP
  }

  predicate Kept(kind: Kind, t: string) {
    !Dropped(kind, t) && Layout(t) && t !in COVERED
  }

  function Keeps(kind: Kind): string -> bool {
    (t: string) => Kept(kind, t)
  }

  predicate SizeToken(t: string) {
    StartsWith(t, "px-") || StartsWith(t, "py-") || StartsWith(t, "text-xs") || StartsWith(t, "text-[11px]")
  }

  function Important(t: string): string {
    "!" + t
  }

  /** A size that the shared class does not give and an override can state. */
  predicate NeedsOverride(t: string) {
    && SizeToken(t) && t !in DEFAULT_SIZES
    && (StartsWith(t, "px-") || StartsWith(t, "py-") || t == "text-xs" || t == "text-[11px]")
  }

  /** The override of `t`, if it needs one that is not there yet. */
  function MissingOverride(extras: seq<string>, t: string): seq<string> {
    if NeedsOverride(t) && Important(t) !in extras then [Important(t)] else []
  }

  function WithOverride(extras: seq<string>, t: string): seq<string> {
    extras + MissingOverride(extras, t)
  }

  function WithOverrides(extras: seq<string>, tokens: seq<string>): seq<string> {
    if tokens == [] then extras
    else WithOverride(WithOverrides(extras, tokens[..|tokens| - 1]), tokens[|tokens| - 1])
  }

  function Extras(tokens: seq<string>, kind: Kind): seq<string> {
    WithOverrides(Select(tokens, Keeps(kind)), Select(tokens, SizeToken))
  }

  /** First pass: keep what the shared class neither replaces nor covers. */
  method KeepLayout(tokens: seq<string>, kind: Kind) returns (extras: seq<string>)
    ensures extras == Select(tokens, Keeps(kind))
  {
    extras := [];
    for i := 0 to |tokens|
      invariant extras == Select(tokens[..i], Keeps(kind))
    {
      var t := tokens[i];
      assert tokens[..i + 1] == tokens[..i] + [t];
      SelectStep(tokens[..i], t, Keeps(kind));
      if Dropped(kind, t) { continue; }
      if Layout(t) {
        if t in COVERED { continue; }
        extras := extras + [t];
      }
    }
    assert tokens[..|tokens|] == tokens;
  }

  lemma SizesAreNotImportant(t: string)
    requires SizeToken(t)
    ensures !StartsWith(t, "!")
  {
    assert t[0] == 'p' || t[0] == 't';
  }

  method AppendOverride(extras: seq<string>, t: string) returns (r: seq<string>)
    requires SizeToken(t)
    ensures r == WithOverride(extras, t)
  {
    r := extras;
    if t in DEFAULT_SIZES { return; }
    SizesAreNotImportant(t);
    if StartsWith(t, "px-") || StartsWith(t, "py-") {
      var important := if StartsWith(t, "!") then t else "!" + t;
      if important !in extras { r := extras + [important]; }
    } else if t == "text-xs" || t == "text-[11px]" {
      var important := "!" + t;
      if important !in extras { r := extras + [important]; }
    }
  }

  lemma OverridesStep(kept: seq<string>, sizeTokens: seq<string>, i: nat)
    requires i < |sizeTokens|
    ensures WithOverrides(kept, sizeTokens[..i + 1]) == WithOverride(WithOverrides(kept, sizeTokens[..i]), sizeTokens[i])
  {
    assert sizeTokens[..i + 1][..i] == sizeTokens[..i];
  }

  lemma SizesOnly(tokens: seq<string>)
    ensures forall i :: 0 <= i < |Select(tokens, SizeToken)| ==> SizeToken(Select(tokens, SizeToken)[i])
  {
    SelectMembers(tokens, SizeToken);
    var sizes := Select(tokens, SizeToken);
    forall i | 0 <= i < |sizes| ensures SizeToken(sizes[i]) {
      assert sizes[i] in sizes;
    }
  }

  method ExtractExtras(tokens: seq<string>, kind: Kind) returns (extras: seq<string>)
    ensures extras == Extras(tokens, kind)
  {
    extras := KeepLayout(tokens, kind);
    var sizeTokens := Select(tokens, SizeToken);
    SizesOnly(tokens);
    ghost var kept := extras;
    for i := 0 to |sizeTokens|
      invariant extras == WithOverrides(kept, sizeTokens[..i])
    {
      OverridesStep(kept, sizeTokens, i);
      extras := AppendOverride(extras, sizeTokens[i]);
    }
    assert sizeTokens[..|sizeTokens|] == sizeTokens;
  }

  // ----- what the two passes leave behind -----

  /** What the second pass appends. */
  ghost predicate Overrides(added: seq<string>, kept: seq<string>, tokens: seq<string>) {
    && Distinct(added)
    && forall x :: x in added <==> x !in kept && exists t :: t in tokens && NeedsOverride(t) && x == Important(t)
  }

  lemma OverrideAdded(kept: seq<string>, added: seq<string>, before: seq<string>, t: string)
    requires Overrides(added, kept, before)
    ensures WithOverride(kept + added, t) == kept + (added + MissingOverride(kept + added, t))
    ensures Overrides(added + MissingOverride(kept + added, t), kept, before + [t])
  {
    var more := MissingOverride(kept + added, t);
    assert kept + added + more == kept + (added + more);
    forall x ensures x in added + more <==>
        x !in kept && exists u :: u in before + [t] && NeedsOverride(u) && x == Important(u)
    {
      if x in added {
        var u :| u in before && NeedsOverride(u) && x == Important(u);
        assert u in before + [t];
      }
      assert t in before + [t];
    }
  }

  /** The second pass keeps the first pass's result in front and appends, once each, the overrides that
      are missing. */
  lemma {:induction false} WithOverridesFacts(kept: seq<string>, tokens: seq<string>) returns (added: seq<string>)
    ensures WithOverrides(kept, tokens) == kept + added && Overrides(added, kept, tokens)
  {
    if tokens == [] {
      added := [];
    } else {
      var n := |tokens| - 1;
      var before := WithOverridesFacts(kept, tokens[..n]);
      OverrideAdded(kept, before, tokens[..n], tokens[n]);
      added := before + MissingOverride(kept + before, tokens[n]);
      assert tokens == tokens[..n] + [tokens[n]];
    }
  }

  /** The result is the kept tokens, in order, followed by distinct overrides, which are exactly the
      important forms of the other sizes that were not kept already. */
  lemma ExtrasShape(tokens: seq<string>, kind: Kind) returns (kept: seq<string>, added: seq<string>)
    ensures Extras(tokens, kind) == kept + added
    ensures Subsequence(kept, tokens) && forall t :: t in kept <==> t in tokens && Kept(kind, t)
    ensures Overrides(added, kept, tokens)
  {
    kept := Select(tokens, Keeps(kind));
    SelectIsSubsequence(tokens, Keeps(kind));
    SelectMembers(tokens, Keeps(kind));
    SelectMembers(tokens, SizeToken);
    added := WithOverridesFacts(kept, Select(tokens, SizeToken));
  }

  lemma OverrideIsPreserved(tokens: seq<string>, kind: Kind, t: string)
    requires t in tokens && NeedsOverride(t)
    ensures Important(t) in Extras(tokens, kind)
  {
    var kept, added := ExtrasShape(tokens, kind);
  }

  /** A padding, or one of the two small text sizes, other than the shared class's own. */
  predicate OtherSize(t: string) {
    && ("px-" <= t || "py-" <= t || t == "text-xs" || t == "text-[11px]")
    && t != "px-3.5" && t != "py-2"
  }

  lemma OtherSizeNeedsOverride(t: string)
    ensures NeedsOverride(t) <==> OtherSize(t)
  {
    assert t == "text-sm" ==> t[0] == 't' && t[5] == 's';
  }

  /** Every size that differs from the shared class's own wins over it: its important form is in the result. */
  lemma OtherSizesArePreserved(tokens: seq<string>, kind: Kind, t: string)
    requires t in tokens && OtherSize(t)
    ensures "!" + t in Extras(tokens, kind)
  {
    OtherSizeNeedsOverride(t);
    OverrideIsPreserved(tokens, kind, t);
  }

  /** Nothing else is in the result: the tokens that are neither dropped for this kind nor covered and that lay out,
      and the important forms of other sizes. */
  lemma ExtrasAre(tokens: seq<string>, kind: Kind, x: string)
    ensures x in Extras(tokens, kind)
            <==> || (&& x in tokens && x !in (if kind == Primary then PRIMARY_DROP else SECONDARY_DROP) && x !in COVERED
                     && (LayoutKeep(x) || x == "underline" || exists p :: p in KEPT_PREFIXES && p <= x))
                 || (exists t :: t in tokens && OtherSize(t) && x == "!" + t)
  {
    var kept, added := ExtrasShape(tokens, kind);
    forall t ensures NeedsOverride(t) <==> OtherSize(t) { OtherSizeNeedsOverride(t); }
    if x in added {
      var t :| t in tokens && NeedsOverride(t) && x == Important(t);
      assert x == "!" + t;
    }
    if t :| t in tokens && OtherSize(t) && x == "!" + t { OtherSizesArePreserved(tokens, kind, t); }
    assert (exists p :: p in KEPT_PREFIXES && p <= x) <==> exists p :: p in KEPT_PREFIXES && StartsWith(x, p) by {
      assert forall p :: StartsWith(x, p) <==> p <= x;
    }
  }

  lemma NoLayoutWord(t: string)
    requires t != "" && t[0] == 'p'
    ensures t !in LAYOUT_WORDS
  {}

  lemma StemsBegin()
    ensures forall stem :: stem in LAYOUT_STEMS ==> stem != "" && stem[0] != 'p'
  {}

  lemma NoLayoutStem(t: string)
    requires t != "" && t[0] == 'p'
    ensures !StemAndMore(t)
  {
    StemsBegin();
  }

  predicate OneSize(rest: string) {
    exists c: char :: '0' <= c <= '9' && rest == [c]
  }

  predicate HalfSize(rest: string) {
    exists c: char, d: char :: '0' <= c <= '9' && '0' <= d <= '9' && rest == [c] + "." + [d]
  }

  lemma SizesAre(rest: string)
    ensures OneSize(rest) <==> |rest| == 1 && Digit(rest[0])
    ensures HalfSize(rest) <==> |rest| == 3 && Digit(rest[0]) && rest[1] == '.' && Digit(rest[2])
  {
    if |rest| == 1 { assert rest == [rest[0]]; }
    if |rest| == 3 && rest[1] == '.' { assert rest == [rest[0]] + "." + [rest[2]]; }
  }

  lemma PaddingNeedsSize(t: string)
    requires "px-" <= t || "py-" <= t
    ensures LayoutKeep(t) <==> StemAndSize(t, "px-") || StemAndSize(t, "py-")
  {
    assert t[0] == 'p';
    NoLayoutWord(t);
    NoLayoutStem(t);
  }

  lemma PaddingHasSize(t: string)
    requires "px-" <= t || "py-" <= t
    ensures StemAndSize(t, "px-") || StemAndSize(t, "py-") <==> OneSize(t[3..]) || HalfSize(t[3..])
  {
    SizesAre(t[3..]);
  }

  /** A padding lays out if and only if its size is one digit, or two with a point between them. */
  lemma PaddingIsLayout(t: string)
    requires "px-" <= t || "py-" <= t
    ensures LayoutKeep(t) <==> OneSize(t[3..]) || HalfSize(t[3..])
  {
    PaddingNeedsSize(t);
    PaddingHasSize(t);
  }

  // ----- running it again -----

  lemma PrimaryDropsNoOverride(t: string)
    ensures Important(t) !in PRIMARY_DROP
  {
    assert Important(t)[0] == '!';
  }

  lemma SecondaryDropsNoOverride(t: string)
    ensures Important(t) !in SECONDARY_DROP
  {
    assert Important(t)[0] == '!';
  }

  lemma NoOverrideIsCovered(t: string)
    ensures Important(t) !in COVERED
  {
    assert Important(t)[0] == '!';
  }

  /** An override survives every further pass, and asks for nothing. */
  lemma ImportantIsStable(kind: Kind, t: string)
    ensures Kept(kind, Important(t)) && !SizeToken(Important(t))
  {
    var x := Important(t);
    assert StartsWith(x, "!") && "!" in KEPT_PREFIXES;
    PrimaryDropsNoOverride(t);
    SecondaryDropsNoOverride(t);
    NoOverrideIsCovered(t);
    assert x[0] == '!';
  }

  lemma {:induction false} NothingToAdd(extras: seq<string>, tokens: seq<string>)
    requires forall t :: t in tokens && NeedsOverride(t) ==> Important(t) in extras
    ensures WithOverrides(extras, tokens) == extras
  {
    if tokens != [] { NothingToAdd(extras, tokens[..|tokens| - 1]); }
  }

  /** Rewriting what was already rewritten changes nothing, for both kinds of button. */
  lemma ExtrasIdempotent(tokens: seq<string>, kind: Kind)
    ensures Extras(Extras(tokens, kind), kind) == Extras(tokens, kind)
  {
    var out := Extras(tokens, kind);
    var kept, added := ExtrasShape(tokens, kind);
    forall t | t in out ensures Kept(kind, t) && (t in kept || !SizeToken(t)) {
      if t !in kept {
        var u :| u in tokens && NeedsOverride(u) && t == Important(u);
        ImportantIsStable(kind, u);
      }
    }
    SelectAll(out, Keeps(kind));
    SelectMembers(out, SizeToken);
    forall t | t in Select(out, SizeToken) && NeedsOverride(t) ensures Important(t) in out {
      OverrideIsPreserved(tokens, kind, t);
    }
    NothingToAdd(out, Select(out, SizeToken));
  }
}
