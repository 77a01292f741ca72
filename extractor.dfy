/** The extractor node: copies the contact fields a language model found in
    the conversation into the graph state, ignoring placeholders such as
    "N/A". The model's reply is an input. */
module Extractor {
  import opened Wrappers

  /** A chat message as a (role, content) pair. */
  datatype Message = Message(role: string, content: string)

  /** The graph state; `None` for a key that is missing or holds `None`. */
  datatype State = State(messages: seq<Message>, customerName: Option<string>,
                         phone: Option<string>, myAge: Option<string>)

  /** The structured reply of the model. */
  datatype ContactInfo = ContactInfo(name: Option<string>, email: Option<string>,
                                     phone: Option<string>, age: Option<string>)

  const CustomerNameKey := "customer_name"
  const PhoneKey := "phone"
  const MyAgeKey := "my_age"
  const UpdateKeys: set<string> := {CustomerNameKey, PhoneKey, MyAgeKey}

  /** Python's `str.isspace`. */
  predicate IsSpace(c: char) {
    || ('\t' <= c <= '\r') || ('\U{1C}' <= c <= ' ')
    || c == '\U{85}' || c == '\U{A0}' || c == '\U{1680}'
    || ('\U{2000}' <= c <= '\U{200A}')
    || c == '\U{2028}' || c == '\U{2029}' || c == '\U{202F}' || c == '\U{205F}' || c == '\U{3000}'
  }

  /** `s.lstrip()`: the dropped prefix is all whitespace, and what is left
      does not start with whitespace. */
  function LStrip(s: string): (r: string)
    ensures |r| <= |s| && r == s[|s| - |r|..]
    ensures AllSpace(s[..|s| - |r|])
    ensures r != [] ==> !IsSpace(r[0])
  {
    if s != [] && IsSpace(s[0]) then
      var r := LStrip(s[1..]);
      LStripStep(s, r);
      r
    else
      assert s[..0] == [];
      s
  }

  /** `s.rstrip()`: the dropped suffix is all whitespace, and what is left
      does not end with whitespace. */
  function RStrip(s: string): (r: string)
    ensures |r| <= |s| && r == s[..|r|]
    ensures AllSpace(s[|r|..])
    ensures r != [] ==> !IsSpace(r[|r| - 1])
  {
    if s != [] && IsSpace(s[|s| - 1]) then
      var r := RStrip(s[..|s| - 1]);
      RStripStep(s, r);
      r
    else
      assert s[|s|..] == [];
      s
  }

  /** `s.strip()`: whitespace removed on either side; `StripIsSlice` shows
      that nothing else is removed. */
  function Strip(s: string): (r: string)
    ensures r != [] ==> !IsSpace(r[0]) && !IsSpace(r[|r| - 1])
  {
    RStrip(LStrip(s))
  }

  /** `r` sits in `s` at index `i` with only whitespace on either side. */
  predicate SpaceFramed(s: string, i: nat, r: string) {
    i + |r| <= |s| && r == s[i..i + |r|] && AllSpace(s[..i]) && AllSpace(s[i + |r|..])
  }

  /** `Strip(s)` is the slice of `s` that starts after the whitespace
      `LStrip` drops, with only whitespace on either side of it. */
  lemma {:induction false} StripIsSlice(s: string)
    ensures SpaceFramed(s, |s| - |LStrip(s)|, Strip(s))
  {
    var l := LStrip(s);
    var r := RStrip(l);
    StripSlices(s, l, r);
    assert Strip(s) == r;
  }

  /** Stripping `l` from the front of `s` and then `r` from the front of `l`
      leaves whitespace only outside `r`'s place in `s`. */
  lemma StripSlices(s: string, l: string, r: string)
    requires |l| <= |s| && l == s[|s| - |l|..] && AllSpace(s[..|s| - |l|])
    requires |r| <= |l| && r == l[..|r|] && AllSpace(l[|r|..])
    ensures SpaceFramed(s, |s| - |l|, r)
  {
    var i := |s| - |l|;
    assert s[i..i + |r|] == l[..|r|];
    assert s[i + |r|..] == l[|r|..];
  }

  /** A leading space dropped in front of what `LStrip(s[1..])` dropped. */
  lemma LStripStep(s: string, r: string)
    requires s != [] && IsSpace(s[0])
    requires |r| <= |s| - 1 && r == s[1..][|s| - 1 - |r|..] && AllSpace(s[1..][..|s| - 1 - |r|])
    ensures r == s[|s| - |r|..] && AllSpace(s[..|s| - |r|])
  {
    assert s[1..][|s| - 1 - |r|..] == s[|s| - |r|..];
    assert s[..|s| - |r|] == [s[0]] + s[1..][..|s| - 1 - |r|];
    AllSpaceConcat([s[0]], s[1..][..|s| - 1 - |r|]);
  }

  /** A trailing space dropped after what `RStrip(s[..|s| - 1])` dropped. */
  lemma RStripStep(s: string, r: string)
    requires s != [] && IsSpace(s[|s| - 1])
    requires |r| <= |s| - 1 && r == s[..|s| - 1][..|r|] && AllSpace(s[..|s| - 1][|r|..])
    ensures r == s[..|r|] && AllSpace(s[|r|..])
  {
    assert s[..|s| - 1][..|r|] == s[..|r|];
    assert s[|r|..] == s[..|s| - 1][|r|..] + [s[|s| - 1]];
    AllSpaceConcat(s[..|s| - 1][|r|..], [s[|s| - 1]]);
  }

  /** Whitespace runs concatenate. */
  lemma AllSpaceConcat(a: string, b: string)
    requires AllSpace(a) && AllSpace(b)
    ensures AllSpace(a + b)
  {
  }

  /** The lower-case form of one character, as far as it can matter for the
      comparison with ASCII sentinels: ASCII capitals and KELVIN SIGN, whose
      lower case is ASCII. */
  function LowerChar(c: char): (r: char)
    ensures 'A' <= c <= 'Z' ==> r == (c as int + 32) as char
    ensures c == '\U{212A}' ==> r == 'k'
    ensures !('A' <= c <= 'Z') && c != '\U{212A}' ==> r == c
    ensures IsSpace(r) <==> IsSpace(c)
    ensures !('A' <= r <= 'Z')
  {
    if 'A' <= c <= 'Z' then (c as int + 32) as char
    else if c == '\U{212A}' then 'k'
    else c
  }

  /** `s.lower()`. */
  function Lower(s: string): (r: string)
    ensures |r| == |s|
  {
    seq(|s|, i requires 0 <= i < |s| => LowerChar(s[i]))
  }

  function Normalize(value: string): string {
    Lower(Strip(value))
  }

  const Placeholders: set<string> := {"", "none", "null", "n/a", "na", "unknown"}

  /** `_is_present`: a value and not a placeholder once stripped and lower-cased. */
  predicate IsPresent(value: Option<string>)
    ensures IsPresent(value) ==> value.Some? && Strip(value.value) != ""
  {
    match value
    case None => false
    case Some(v) => Normalize(v) !in Placeholders
  }

  /** Two strings equal up to letter case. */
  predicate SameIgnoringCase(a: string, b: string) {
    |a| == |b| && forall i :: 0 <= i < |a| ==> LowerChar(a[i]) == LowerChar(b[i])
  }

  lemma {:induction false} LStripRespectsCase(a: string, b: string)
    requires SameIgnoringCase(a, b)
    ensures SameIgnoringCase(LStrip(a), LStrip(b))
  {
    if a != [] && IsSpace(a[0]) {
      assert LowerChar(a[0]) == LowerChar(b[0]);
      assert SameIgnoringCase(a[1..], b[1..]) by {
        forall i | 0 <= i < |a| - 1 ensures LowerChar(a[1..][i]) == LowerChar(b[1..][i]) {
          assert a[1..][i] == a[i + 1] && b[1..][i] == b[i + 1];
        }
      }
      LStripRespectsCase(a[1..], b[1..]);
    } else if a != [] {
      assert LowerChar(a[0]) == LowerChar(b[0]);
    }
  }

  lemma {:induction false} RStripRespectsCase(a: string, b: string)
    requires SameIgnoringCase(a, b)
    ensures SameIgnoringCase(RStrip(a), RStrip(b))
  {
    if a != [] && IsSpace(a[|a| - 1]) {
      assert LowerChar(a[|a| - 1]) == LowerChar(b[|b| - 1]);
      var a', b' := a[..|a| - 1], b[..|b| - 1];
      assert SameIgnoringCase(a', b') by {
        forall i | 0 <= i < |a'| ensures LowerChar(a'[i]) == LowerChar(b'[i]) {
          assert a'[i] == a[i] && b'[i] == b[i];
        }
      }
      RStripRespectsCase(a', b');
    } else if a != [] {
      assert LowerChar(a[|a| - 1]) == LowerChar(b[|b| - 1]);
    }
  }

  /** Presence does not depend on letter case. */
  lemma PresenceIgnoresCase(a: string, b: string)
    requires SameIgnoringCase(a, b)
    ensures IsPresent(Some(a)) == IsPresent(Some(b))
  {
    LStripRespectsCase(a, b);
    RStripRespectsCase(LStrip(a), LStrip(b));
    assert Normalize(a) == Normalize(b);
  }

  predicate AllSpace(s: string) {
    forall i :: 0 <= i < |s| ==> IsSpace(s[i])
  }

  lemma {:induction false} LStripSpacesPrefix(pre: string, s: string)
    requires AllSpace(pre)
    ensures LStrip(pre + s) == LStrip(s)
  {
    if pre != [] {
      assert (pre + s)[0] == pre[0];
      assert (pre + s)[1..] == pre[1..] + s;
      LStripSpacesPrefix(pre[1..], s);
    } else {
      assert pre + s == s;
    }
  }

  lemma {:induction false} RStripSpacesSuffix(s: string, post: string)
    requires AllSpace(post)
    ensures RStrip(s + post) == RStrip(s)
  {
    if post != [] {
      var t := s + post;
      assert t[|t| - 1] == post[|post| - 1];
      assert t[..|t| - 1] == s + post[..|post| - 1];
      RStripSpacesSuffix(s, post[..|post| - 1]);
    } else {
      assert s + post == s;
    }
  }

  /** Spaces after the text survive LStrip unless the text is all spaces. */
  lemma {:induction false} LStripThenSuffix(s: string, post: string)
    requires AllSpace(post)
    ensures RStrip(LStrip(s + post)) == RStrip(LStrip(s))
  {
    if s == [] {
      assert s + post == post;
      LStripSpacesPrefix(post, "");
      assert post + "" == post;
    } else if IsSpace(s[0]) {
      assert (s + post)[0] == s[0];
      assert (s + post)[1..] == s[1..] + post;
      LStripThenSuffix(s[1..], post);
    } else {
      assert (s + post)[0] == s[0];
      RStripSpacesSuffix(s, post);
    }
  }

  /** Presence does not depend on surrounding whitespace. */
  lemma PresenceIgnoresSurroundingSpace(pre: string, v: string, post: string)
    requires AllSpace(pre) && AllSpace(post)
    ensures IsPresent(Some(pre + v + post)) == IsPresent(Some(v))
  {
    assert pre + v + post == pre + (v + post);
    LStripSpacesPrefix(pre, v + post);
    LStripThenSuffix(v, post);
  }

  /** An update with a key exactly when its flag is set, holding the given
      value; nothing else. */
  ghost predicate UpdateShaped(update: map<string, string>, hasName: bool, name: string,
                               hasPhone: bool, phone: string, hasAge: bool, age: string) {
    && update.Keys <= UpdateKeys
    && (CustomerNameKey in update <==> hasName)
    && (PhoneKey in update <==> hasPhone)
    && (MyAgeKey in update <==> hasAge)
    && (hasName ==> update[CustomerNameKey] == name)
    && (hasPhone ==> update[PhoneKey] == phone)
    && (hasAge ==> update[MyAgeKey] == age)
  }

  /** What the update holds for a given reply: a key exactly when its field
      is present, with the raw (not normalised) value; nothing else. */
  ghost predicate IsUpdateFor(reply: ContactInfo, update: map<string, string>) {
    UpdateShaped(update, IsPresent(reply.name), reply.name.GetOr(""),
                 IsPresent(reply.phone), reply.phone.GetOr(""),
                 IsPresent(reply.age), reply.age.GetOr(""))
  }

  /** The flags and values determine the update. */
  lemma UpdateShapeUnique(u1: map<string, string>, u2: map<string, string>, hasName: bool, name: string,
                          hasPhone: bool, phone: string, hasAge: bool, age: string)
    requires UpdateShaped(u1, hasName, name, hasPhone, phone, hasAge, age)
    requires UpdateShaped(u2, hasName, name, hasPhone, phone, hasAge, age)
    ensures u1 == u2
  {
    assert u1.Keys == u2.Keys;
  }

  /** `extractor(state)`. `prompt` is the formatted system prompt and `reply`
      what the model would answer; `request` is the message list sent to the
      model, `None` when it is not consulted. */
  method Extract(state: State, prompt: string, reply: ContactInfo)
    returns (update: map<string, string>, request: Option<seq<Message>>)
    ensures update.Keys <= UpdateKeys
    ensures state.customerName.Some? ==> update == map[] && request == None
    ensures state.customerName.None? ==>
      request == Some([Message("system", prompt)] + state.messages) && IsUpdateFor(reply, update)
  {
    update := map[];
    request := None;
    if state.customerName.None? {
      request := Some([Message("system", prompt)] + state.messages);
      if IsPresent(reply.name) {
        update := update[CustomerNameKey := reply.name.value];
      }
      if IsPresent(reply.phone) {
        update := update[PhoneKey := reply.phone.value];
      }
      if IsPresent(reply.age) {
        update := update[MyAgeKey := reply.age.value];
      }
    }
  }

  /** The reply determines the update, and its e-mail plays no part in it. */
  lemma UpdateIgnoresEmail(reply: ContactInfo, email: Option<string>, u1: map<string, string>, u2: map<string, string>)
    requires IsUpdateFor(reply, u1) && IsUpdateFor(reply.(email := email), u2)
    ensures u1 == u2
  {
    var other := reply.(email := email);
    assert other.name == reply.name && other.phone == reply.phone && other.age == reply.age;
    UpdateShapeUnique(u1, u2, IsPresent(reply.name), reply.name.GetOr(""),
                      IsPresent(reply.phone), reply.phone.GetOr(""),
                      IsPresent(reply.age), reply.age.GetOr(""));
  }
}
