/** Redaction of what goes into the audit log. */
module AuditMetadata {
  import opened Text

  /** JSON values; anything that is neither an object nor a list is kept as its text. */
  datatype Value =
    | Plain(text: string)
    | Object(fields: map<string, Value>)
    | List(items: seq<Value>)

  const REDACTED := Plain("[redacted]")

  predicate Contains(s: string, marker: string) {
    marker <= s || (s != [] && Contains(s[1..], marker))
  }

  const MARKERS := ["password", "secret", "token", "private_key", "signing_key", "database_url", "license_key"]

  predicate IsSensitive(key: string) {
    var k := ToLower(TrimSpace(key));
    k !in ["license_key_prefix", "key_prefix"] && exists m | m in MARKERS :: Contains(k, m)
  }

  /** The word stands somewhere in the text. */
  predicate Occurs(word: string, s: string) {
    exists i | 0 <= i <= |s| :: word <= s[i..]
  }

  lemma {:induction false} ContainsIff(s: string, word: string)
    ensures Contains(s, word) <==> Occurs(word, s)
  {
    if word <= s {
      assert s[0..] == s;
    } else if s != [] {
      ContainsIff(s[1..], word);
      if i :| 0 <= i <= |s| && word <= s[i..] {
        assert i > 0 by {
          assert s[0..] == s;
        }
        assert s[1..][i - 1..] == s[i..];
      }
      if i :| 0 <= i <= |s[1..]| && word <= s[1..][i..] {
        assert s[i + 1..] == s[1..][i..];
      }
    }
  }

  /** A key is sensitive, however it is cased, if it names a secret; the two key prefixes do not. */
  lemma SensitiveIff(key: string)
    ensures var k := ToLower(TrimSpace(key));
            IsSensitive(key) <==>
              && k != "license_key_prefix" && k != "key_prefix"
              && (|| Occurs("password", k) || Occurs("secret", k) || Occurs("token", k) || Occurs("private_key", k)
                  || Occurs("signing_key", k) || Occurs("database_url", k) || Occurs("license_key", k))
  {
    hide Contains, Occurs, TrimSpace, ToLower;
    var k := ToLower(TrimSpace(key));
    ContainsIff(k, "password");
    ContainsIff(k, "secret");
    ContainsIff(k, "token");
    ContainsIff(k, "private_key");
    ContainsIff(k, "signing_key");
    ContainsIff(k, "database_url");
    ContainsIff(k, "license_key");
  }

  function Sanitize(key: string, v: Value): Value
    decreases v
  {
    if IsSensitive(key) then REDACTED
    else match v
      case Plain(_) => v
      case Object(fields) => Object(map k | k in fields :: Sanitize(k, fields[k]))
      case List(items) => List(seq(|items|, i requires 0 <= i < |items| => Sanitize("", items[i])))
  }

  /** Nothing but the placeholder stands under a sensitive key, at any depth. */
  ghost predicate Clean(key: string, v: Value)
    decreases v
  {
    if IsSensitive(key) then v == Plain("[redacted]")
    else match v
      case Plain(_) => true
      case Object(fields) => forall k | k in fields :: Clean(k, fields[k])
      case List(items) => forall i | 0 <= i < |items| :: Clean("", items[i])
  }

  /** What is logged is clean, and what was clean is logged as it is. */
  lemma {:induction false} SanitizeCleans(key: string, v: Value)
    ensures Clean(key, Sanitize(key, v))
    ensures Sanitize(key, v) == v <==> Clean(key, v)
    decreases v
  {
    hide IsSensitive;
    if !IsSensitive(key) {
      match v
      case Plain(_) =>
      case Object(fields) =>
        forall k | k in fields
          ensures Clean(k, Sanitize(k, fields[k])) && (Sanitize(k, fields[k]) == fields[k] <==> Clean(k, fields[k]))
        {
          SanitizeCleans(k, fields[k]);
        }
        var fields' := Sanitize(key, v).fields;
        assert fields' == fields <==> forall k | k in fields :: fields'[k] == fields[k];
      case List(items) =>
        forall i | 0 <= i < |items|
          ensures Clean("", Sanitize("", items[i])) && (Sanitize("", items[i]) == items[i] <==> Clean("", items[i]))
        {
          SanitizeCleans("", items[i]);
        }
        var items' := Sanitize(key, v).items;
        assert items' == items <==> forall i | 0 <= i < |items| :: items'[i] == items[i];
    }
  }

  lemma SanitizeIdempotent(key: string, v: Value)
    ensures Sanitize(key, Sanitize(key, v)) == Sanitize(key, v)
  {
    SanitizeCleans(key, v);
    SanitizeCleans(key, Sanitize(key, v));
  }

  // ----- nothing secret can be read off the log, and nothing else is lost -----

  /** Equal except for what stands under sensitive keys. */
  ghost predicate Alike(key: string, a: Value, b: Value)
    decreases a
  {
    IsSensitive(key) ||
    match a
    case Plain(_) => b == a
    case Object(fields) =>
      b.Object? && b.fields.Keys == fields.Keys && forall k | k in fields :: Alike(k, fields[k], b.fields[k])
    case List(items) =>
      b.List? && |b.items| == |items| && forall i | 0 <= i < |items| :: Alike("", items[i], b.items[i])
  }

  /** Two values leave the same log exactly when they differ at most under sensitive keys. */
  lemma {:induction false} SanitizeHides(key: string, a: Value, b: Value)
    ensures Sanitize(key, a) == Sanitize(key, b) <==> Alike(key, a, b)
    decreases a
  {
    hide IsSensitive;
    if !IsSensitive(key) {
      match a
      case Plain(_) =>
      case Object(fields) =>
        if b.Object? && b.fields.Keys == fields.Keys {
          forall k | k in fields
            ensures Sanitize(k, fields[k]) == Sanitize(k, b.fields[k]) <==> Alike(k, fields[k], b.fields[k])
          {
            SanitizeHides(k, fields[k], b.fields[k]);
          }
          SameFields(key, a, b);
        } else if b.Object? {
          assert Sanitize(key, a).fields.Keys == fields.Keys && Sanitize(key, b).fields.Keys == b.fields.Keys;
        }
      case List(items) =>
        if b.List? && |b.items| == |items| {
          forall i | 0 <= i < |items|
            ensures Sanitize("", items[i]) == Sanitize("", b.items[i]) <==> Alike("", items[i], b.items[i])
          {
            SanitizeHides("", items[i], b.items[i]);
          }
          SameItems(key, a, b);
        } else if b.List? {
          assert |Sanitize(key, a).items| == |items| && |Sanitize(key, b).items| == |b.items|;
        }
    }
  }

  lemma SanitizedFields(key: string, a: Value)
    requires !IsSensitive(key) && a.Object?
    ensures var r := Sanitize(key, a);
            && r.Object? && r.fields.Keys == a.fields.Keys
            && forall k | k in a.fields :: r.fields[k] == Sanitize(k, a.fields[k])
  {
  }

  lemma SameFields(key: string, a: Value, b: Value)
    requires !IsSensitive(key) && a.Object? && b.Object? && a.fields.Keys == b.fields.Keys
    ensures Sanitize(key, a) == Sanitize(key, b)
            <==> forall k | k in a.fields :: Sanitize(k, a.fields[k]) == Sanitize(k, b.fields[k])
  {
    hide IsSensitive, Sanitize;
    SanitizedFields(key, a);
    SanitizedFields(key, b);
    var f, g := Sanitize(key, a).fields, Sanitize(key, b).fields;
    assert f == g <==> forall k | k in a.fields :: f[k] == g[k];
  }

  lemma SameItems(key: string, a: Value, b: Value)
    requires !IsSensitive(key) && a.List? && b.List? && |a.items| == |b.items|
    ensures Sanitize(key, a) == Sanitize(key, b)
            <==> forall i | 0 <= i < |a.items| :: Sanitize("", a.items[i]) == Sanitize("", b.items[i])
  {
    hide IsSensitive;
    var f, g := Sanitize(key, a).items, Sanitize(key, b).items;
    assert f == g <==> forall i | 0 <= i < |a.items| :: f[i] == g[i];
    assert forall i | 0 <= i < |a.items| :: f[i] == Sanitize("", a.items[i]) && g[i] == Sanitize("", b.items[i]);
  }
}
