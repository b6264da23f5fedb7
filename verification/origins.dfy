/** The list of user-activated origins kept by the background worker
    (`REGISTER_ORIGIN` / `UNREGISTER_ORIGIN`) and the content-script match
    patterns derived from it.  The permission prompt is an oracle. */
module Origins {
  import opened Wrappers
  import opened Strings

  datatype Reply = Registered | Rejected(error: string)

  /** `/^https?:\/\//i` */
  predicate IsHttpOrigin(o: string) {
    StartsWithIgnoringCase(o, "http://") || StartsWithIgnoringCase(o, "https://")
  }

  /** `prefix` is lower-case ASCII and `o` starts with it up to ASCII case. */
  predicate StartsWithIgnoringCase(o: string, prefix: string) {
    |prefix| <= |o| && forall k :: 0 <= k < |prefix| ==> LowerAscii(o[k]) == prefix[k]
  }

  /** `REGISTER_ORIGIN`: validate the trimmed origin, ask for the host
      permission, then append the origin unless it is already listed. */
  function Register(list: seq<string>, raw: string, permitted: bool): (r: (seq<string>, Reply))
    ensures r.1 == Registered <==> IsHttpOrigin(Trim(raw)) && permitted
    ensures !IsHttpOrigin(Trim(raw)) ==> r.1 == Rejected("invalid origin")
    ensures IsHttpOrigin(Trim(raw)) && !permitted ==> r.1 == Rejected("permission_denied")
    ensures r.1.Rejected? ==> r.0 == list
    ensures r.1 == Registered ==>
      && Trim(raw) in r.0
      && |r.0| == (if Trim(raw) in list then |list| else |list| + 1)
      && r.0[..|list|] == list
    ensures NoDuplicates(list) ==> NoDuplicates(r.0)
  {
    var origin := Trim(raw);
    if !IsHttpOrigin(origin) then (list, Rejected("invalid origin"))
    else if !permitted then (list, Rejected("permission_denied"))
    else if origin in list then (list, Registered)
    else
      var r := list + [origin];
      assert r[..|list|] == list;
      assert NoDuplicates(list) ==> NoDuplicates(r) by {
        if NoDuplicates(list) {
          forall i, j | 0 <= i < j < |r| ensures r[i] != r[j] {
            if j == |list| {
              assert r[i] == list[i];
            }
          }
        }
      }
      (r, Registered)
  }

  /** `cur.filter((o) => o !== origin)` */
  function Without(list: seq<string>, origin: string): (r: seq<string>)
    ensures origin !in r
    ensures forall x :: x in r <==> x in list && x != origin
    ensures |r| <= |list|
  {
    if list == [] then []
    else if list[0] == origin then Without(list[1..], origin)
    else [list[0]] + Without(list[1..], origin)
  }

  /** `UNREGISTER_ORIGIN`: every entry equal to the trimmed origin is removed. */
  function Unregister(list: seq<string>, raw: string): (r: seq<string>)
    ensures Trim(raw) !in r
    ensures forall x :: x in list && x != Trim(raw) ==> x in r
    ensures forall x :: x in r ==> x in list
  {
    Without(list, Trim(raw))
  }

  lemma {:induction false} WithoutAbsent(list: seq<string>, origin: string)
    requires origin !in list
    ensures Without(list, origin) == list
    decreases |list|
  {
    if list != [] {
      WithoutAbsent(list[1..], origin);
    }
  }

  lemma {:induction false} WithoutAppend(a: seq<string>, b: seq<string>, origin: string)
    ensures Without(a + b, origin) == Without(a, origin) + Without(b, origin)
    decreases |a|
  {
    if a == [] {
      assert a + b == b;
    } else {
      assert (a + b)[1..] == a[1..] + b;
      WithoutAppend(a[1..], b, origin);
    }
  }

  /** Unregistering an origin that registration has just added restores the
      previous list exactly. */
  lemma RegisterThenUnregister(list: seq<string>, raw: string)
    requires Trim(raw) !in list
    requires Register(list, raw, true).1 == Registered
    ensures Unregister(Register(list, raw, true).0, raw) == list
  {
    var o := Trim(raw);
    WithoutAppend(list, [o], o);
    WithoutAbsent(list, o);
    assert Without([o], o) == [];
  }

  /** Registering an origin twice leaves the list as after the first time. */
  lemma RegisterIdempotent(list: seq<string>, raw: string)
    requires Register(list, raw, true).1 == Registered
    ensures Register(Register(list, raw, true).0, raw, true).0 == Register(list, raw, true).0
  {
  }

  /** The content-script match patterns: each origin with one trailing slash
      dropped and the `/` + `*` wildcard path appended; `None` when nothing is registered. */
  function ContentScriptMatches(origins: seq<string>): (r: Option<seq<string>>)
    ensures r.None? <==> origins == []
    ensures r.Some? ==> |r.value| == |origins|
    ensures r.Some? ==> forall i :: 0 <= i < |origins| ==>
      var m := r.value[i];
      var o := origins[i];
      |m| >= 2 && m[|m| - 2..] == "/*"
      && (|o| > 0 && o[|o| - 1] == '/' ==> m[..|m| - 2] + "/" == o)
      && (|o| == 0 || o[|o| - 1] != '/' ==> m[..|m| - 2] == o)
  {
    if origins == [] then None
    else Some(seq(|origins|, i requires 0 <= i < |origins| => StripTrailingSlash(origins[i]) + "/*"))
  }
}
