/** The CORS origin check: a fixed pair of origins plus the comma-separated
    `CORS_ORIGIN` setting, and the per-request decision made from them. */
module Cors {
  import opened Wrappers
  import opened Js

  const LocalDevOrigin: string := "http://localhost:5173"
  const DeployedOrigin: string := "https://climasphere-aybkjmltb-rajan-mandals-projects.vercel.app"

  /** `(process.env.CORS_ORIGIN || "").trim()` */
  function RawSetting(corsOrigin: Option<string>): string {
    Trim(if corsOrigin.Some? then corsOrigin.value else "")
  }

  /** Neither starts nor ends with white space. */
  predicate Unpadded(e: string) {
    e == [] || (!IsSpace(e[0]) && !IsSpace(e[|e| - 1]))
  }

  /** `.filter(Boolean)` on strings: keeps the non-empty entries in order. */
  function DropEmpty(xs: seq<string>): (ys: seq<string>)
    ensures |ys| <= |xs|
    ensures forall i :: 0 <= i < |ys| ==> ys[i] != ""
    ensures forall i :: 0 <= i < |ys| ==> ys[i] in xs
    decreases |xs|
  {
    if xs == [] then []
    else if xs[0] == "" then DropEmpty(xs[1..])
    else [xs[0]] + DropEmpty(xs[1..])
  }

  /** The trimmed comma-separated entries of the setting, empty ones included. */
  function SettingEntries(corsOrigin: Option<string>): (es: seq<string>)
    ensures forall e :: e in es ==> Unpadded(e)
  {
    TrimEach(Split(RawSetting(corsOrigin), ','))
  }

  /** `.map((s) => s.trim())` */
  function TrimEach(parts: seq<string>): (es: seq<string>)
    ensures |es| == |parts|
    ensures forall i :: 0 <= i < |es| ==> es[i] == Trim(parts[i])
  {
    seq(|parts|, i requires 0 <= i < |parts| => Trim(parts[i]))
  }

  /** The list `[a, b, ...entries].filter(Boolean)` for two non-empty
      leading origins `a` and `b`. */
  lemma DropEmptyKeepsLeading(a: string, b: string, es: seq<string>)
    requires a != "" && b != ""
    ensures DropEmpty([a, b] + es) == [a, b] + DropEmpty(es)
  {
    assert ([a, b] + es)[1..] == [b] + es;
    assert ([b] + es)[1..] == es;
  }

  /** An unset setting contributes a single empty entry. */
  lemma UnsetSettingEntries()
    ensures SettingEntries(None) == [""]
  {
    assert RawSetting(None) == "";
    assert Split("", ',') == [""];
  }

  lemma AllowListShape(a: string, b: string, corsOrigin: Option<string>)
    requires a != "" && b != ""
    ensures var list := DropEmpty([a, b] + SettingEntries(corsOrigin));
      && |list| >= 2 && list[0] == a && list[1] == b
      && (forall i :: 2 <= i < |list| ==> list[i] != "" && Unpadded(list[i]))
  {
    var es := SettingEntries(corsOrigin);
    DropEmptyKeepsLeading(a, b, es);
    var kept := DropEmpty(es);
    assert forall i :: 0 <= i < |kept| ==> Unpadded(kept[i]);
  }

  lemma UnsetAllowList(a: string, b: string)
    requires a != "" && b != ""
    ensures DropEmpty([a, b] + SettingEntries(None)) == [a, b]
  {
    UnsetSettingEntries();
    DropEmptyKeepsLeading(a, b, [""]);
    assert DropEmpty([""]) == [];
  }

  /** The allow-list: the two literal origins first, then every non-empty
      trimmed entry of `CORS_ORIGIN`. */
  function AllowedOrigins(corsOrigin: Option<string>): (list: seq<string>)
    ensures |list| >= 2 && list[0] == LocalDevOrigin && list[1] == DeployedOrigin
    ensures forall i :: 0 <= i < |list| ==> list[i] != ""
    ensures forall i :: 2 <= i < |list| ==> Unpadded(list[i])
    ensures corsOrigin.None? ==> list == [LocalDevOrigin, DeployedOrigin]
  {
    AllowListShape(LocalDevOrigin, DeployedOrigin, corsOrigin);
    UnsetAllowList(LocalDevOrigin, DeployedOrigin);
    DropEmpty([LocalDevOrigin, DeployedOrigin] + SettingEntries(corsOrigin))
  }

  lemma {:induction false} DropEmptyMembers(xs: seq<string>, x: string)
    ensures x in DropEmpty(xs) <==> x in xs && x != ""
    decreases |xs|
  {
    if xs != [] {
      DropEmptyMembers(xs[1..], x);
      assert xs == [xs[0]] + xs[1..];
    }
  }

  lemma TrimEachMembers(parts: seq<string>, x: string)
    ensures x in TrimEach(parts) <==> exists p :: p in parts && Trim(p) == x
  {
    var es := TrimEach(parts);
    if x in es {
      var i :| 0 <= i < |es| && es[i] == x;
      assert parts[i] in parts;
    }
    if exists p :: p in parts && Trim(p) == x {
      var p :| p in parts && Trim(p) == x;
      var i :| 0 <= i < |parts| && parts[i] == p;
      assert es[i] == x;
    }
  }

  /** Membership in the allow-list, stated over the raw setting: one of the
      two literal origins, or the non-empty trim of some comma-separated
      piece of `CORS_ORIGIN`. */
  lemma AllowedOriginsMembers(corsOrigin: Option<string>, o: string)
    ensures o in AllowedOrigins(corsOrigin) <==>
      || o == LocalDevOrigin
      || o == DeployedOrigin
      || (o != "" && exists p :: p in Split(RawSetting(corsOrigin), ',') && Trim(p) == o)
  {
    var parts := Split(RawSetting(corsOrigin), ',');
    var es := TrimEach(parts);
    assert es == SettingEntries(corsOrigin);
    DropEmptyKeepsLeading(LocalDevOrigin, DeployedOrigin, es);
    DropEmptyMembers(es, o);
    TrimEachMembers(parts, o);
    assert o in [LocalDevOrigin, DeployedOrigin] + DropEmpty(es) <==>
      o == LocalDevOrigin || o == DeployedOrigin || o in DropEmpty(es);
  }

  /** What the `origin` callback answers. */
  datatype Verdict = Allow | Block(reason: string)

  /** The `origin` callback of the CORS options for a request whose
      `Origin` header is `origin`. */
  function DecideOrigin(allowed: seq<string>, nodeEnv: Option<string>, origin: Option<string>): (v: Verdict)
    ensures v.Block? ==> origin.Some? && origin.value !in allowed
  {
    if origin.None? || origin.value == "" then Allow
    else if |allowed| == 0 && nodeEnv != Some("production") then Allow
    else if origin.value in allowed then Allow
    else Block("CORS blocked for origin: " + origin.value)
  }

  /** With the list the service actually builds, a request without an origin
      is allowed, any other origin is allowed exactly when it is listed, and
      every other origin is refused with an error naming it; `NODE_ENV` never
      matters because the list is never empty. */
  lemma CorsPolicy(corsOrigin: Option<string>, nodeEnv: Option<string>, origin: Option<string>)
    ensures DecideOrigin(AllowedOrigins(corsOrigin), nodeEnv, origin) ==
      if origin.None? || origin.value == "" || origin.value in AllowedOrigins(corsOrigin) then Allow
      else Block("CORS blocked for origin: " + origin.value)
  {
  }
}
