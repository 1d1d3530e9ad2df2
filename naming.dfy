/**
 * Identifier and topic derivation (uhome/uhome.py:11-13, 51-55): the slug
 * rule and the fixed topic templates of the hub's discovery convention.
 */
module Naming {

  /** The two entity variants; the `entity_type` string of each. */
  datatype Kind = Sensor | Button

  function KindName(k: Kind): string {
    match k
    case Sensor => "sensor"
    case Button => "button"
  }

  predicate IsUpper(c: char) {
    'A' <= c <= 'Z'
  }

  /** ASCII case folding of one character. */
  function LowerChar(c: char): char {
    if IsUpper(c) then (c as int + 32) as char else c
  }

  function SpaceToUnderscore(c: char): char {
    if c == ' ' then '_' else c
  }

  /** `s.replace(' ', '_')`: every space, and nothing else, becomes `_`. */
  function ReplaceSpaces(s: string): (r: string)
    ensures |r| == |s|
    ensures forall i :: 0 <= i < |s| ==> r[i] == SpaceToUnderscore(s[i])
  {
    if s == [] then [] else [SpaceToUnderscore(s[0])] + ReplaceSpaces(s[1..])
  }

  /** `s.lower()` on ASCII text: each character is folded on its own. */
  function Lower(s: string): (r: string)
    ensures |r| == |s|
    ensures forall i :: 0 <= i < |s| ==> r[i] == LowerChar(s[i])
  {
    if s == [] then [] else [LowerChar(s[0])] + Lower(s[1..])
  }

  /**
   * The slug of a human-readable name: spaces become `_`, then the text is
   * lower-cased. The result has the same length, holds no space and no
   * upper-case letter, and keeps every other character in place.
   */
  function Slug(s: string): (r: string)
    ensures |r| == |s|
    ensures forall i :: 0 <= i < |r| ==> r[i] != ' ' && !IsUpper(r[i])
    ensures forall i :: 0 <= i < |s| && s[i] == ' ' ==> r[i] == '_'
    ensures forall i :: 0 <= i < |s| && IsUpper(s[i]) ==> r[i] as int == s[i] as int + 32
    ensures forall i :: 0 <= i < |s| && s[i] != ' ' && !IsUpper(s[i]) ==> r[i] == s[i]
  {
    Lower(ReplaceSpaces(s))
  }

  /** A string is its own slug exactly when it holds no space and no upper-case letter. */
  predicate IsSlug(s: string) {
    forall i :: 0 <= i < |s| ==> s[i] != ' ' && !IsUpper(s[i])
  }

  lemma SlugFixedPoints(s: string)
    ensures Slug(s) == s <==> IsSlug(s)
  {
  }

  /** Applying the slug rule twice gives the same result as applying it once. */
  lemma SlugIdempotent(s: string)
    ensures Slug(Slug(s)) == Slug(s)
  {
  }

  /** The slug works character by character: the slug of a concatenation is the concatenation of the slugs. */
  lemma SlugConcat(x: string, y: string)
    ensures Slug(x + y) == Slug(x) + Slug(y)
  {
  }

  /** The device's availability (last-will) topic. */
  function AvailabilityTopic(prefix: string, deviceId: string): (t: string)
    ensures |t| == |prefix| + 14 + |deviceId|
    ensures t[..|prefix|] == prefix && t[|prefix|..|prefix| + 14] == "/availability/"
    ensures t[|t| - |deviceId|..] == deviceId
  {
    prefix + "/availability/" + deviceId
  }

  /** The entity's unique id. */
  function UniqueId(deviceId: string, slug: string): (u: string)
    ensures |u| == |deviceId| + 1 + |slug|
    ensures u[..|deviceId|] == deviceId && u[|deviceId|] == '_' && u[|deviceId| + 1..] == slug
  {
    deviceId + "_" + slug
  }

  /** The common start of every topic of one entity kind on one device. */
  function TopicPrefix(prefix: string, kind: Kind, deviceId: string): (t: string)
    ensures |t| == |prefix| + 8 + |deviceId|
    ensures t[..|prefix|] == prefix && t[|prefix|] == '/'
    ensures t[|prefix| + 1..|prefix| + 7] == KindName(kind) && t[|prefix| + 7] == '/'
    ensures t[|prefix| + 8..] == deviceId
  {
    prefix + "/" + KindName(kind) + "/" + deviceId
  }

  /** Where the entity's discovery configuration is published. */
  function DiscoveryTopic(prefix: string, kind: Kind, deviceId: string, slug: string): (t: string)
    ensures var p := TopicPrefix(prefix, kind, deviceId);
      && |t| == |p| + |slug| + 8
      && t[..|p|] == p && t[|p|] == '/'
      && t[|p| + 1..|p| + 1 + |slug|] == slug
      && t[|t| - 7..] == "/config"
  {
    TopicPrefix(prefix, kind, deviceId) + "/" + slug + "/config"
  }

  /** The state topic of a sensor and, built the same way, the command topic of a button. */
  function StateTopic(prefix: string, kind: Kind, deviceId: string, slug: string): (t: string)
    ensures var p := TopicPrefix(prefix, kind, deviceId);
      && |t| == |p| + 7 + |slug|
      && t[..|p|] == p && t[|p|..|p| + 7] == "/state/"
      && t[|p| + 7..] == slug
  {
    TopicPrefix(prefix, kind, deviceId) + "/state/" + slug
  }

  /** On one device, distinct entity slugs of one kind give distinct unique ids and distinct data topics. */
  lemma EntityNamesInjective(prefix: string, kind: Kind, deviceId: string, s1: string, s2: string)
    ensures UniqueId(deviceId, s1) == UniqueId(deviceId, s2) <==> s1 == s2
    ensures StateTopic(prefix, kind, deviceId, s1) == StateTopic(prefix, kind, deviceId, s2) <==> s1 == s2
  {
  }

  /**
   * Topics under the prefix of one kind never equal topics under the prefix
   * of the other kind, whatever the device ids and the rest of the topics:
   * a button's command topic is never a sensor's state topic.
   */
  lemma KindsSeparateTopics(prefix: string, k1: Kind, d1: string, x: string, k2: Kind, d2: string, y: string)
    requires k1 != k2
    ensures TopicPrefix(prefix, k1, d1) + x != TopicPrefix(prefix, k2, d2) + y
  {
    var n := |prefix| + 1;
    assert (TopicPrefix(prefix, k1, d1) + x)[n] == KindName(k1)[0];
    assert (TopicPrefix(prefix, k2, d2) + y)[n] == KindName(k2)[0];
  }

  /** The availability topic is never the topic of any entity (under the same prefix). */
  lemma AvailabilityTopicIsNotAnEntityTopic(prefix: string, d1: string, kind: Kind, d2: string, x: string)
    ensures AvailabilityTopic(prefix, d1) != TopicPrefix(prefix, kind, d2) + x
  {
    var n := |prefix| + 1;
    assert AvailabilityTopic(prefix, d1)[n] == 'a';
    assert (TopicPrefix(prefix, kind, d2) + x)[n] == KindName(kind)[0];
  }

  /**
   * The templates are not disjoint: the discovery topic of an entity whose
   * slug is "state" is the data topic of an entity of the same kind whose
   * slug is "config".
   */
  lemma DiscoveryAndStateTopicsCanMeet(prefix: string, kind: Kind, deviceId: string)
    ensures DiscoveryTopic(prefix, kind, deviceId, "state") == StateTopic(prefix, kind, deviceId, "config")
  {
  }
}
