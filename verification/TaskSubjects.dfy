/** What the three kinds of queries of a relay ask for. */
module TaskSubjects {
  import opened Trackers
  import opened SchedulerModel
  import F = Filters

  /** Metadata, recommended relay, contacts and relay list events are downloaded whoever made them. */
  const GLOBAL_KINDS: seq<int> := [0, 2, 3, 10002]

  datatype PublicKeys = PublicKeys(authors: seq<string>, tagged: seq<string>)

  /** A `p` tag per key. */
  function TagsOf(keys: seq<string>): seq<F.FilterTag> {
    seq(|keys|, i requires 0 <= i < |keys| => F.FilterTag("p", keys[i]))
  }

  ghost predicate Asks(filter: F.Filter, subject: Subject) {
    && filter.ids == [] && filter.kinds == subject.kinds && filter.authors == subject.authors
    && filter.tags == F.TagMap(subject.tags)
  }

  /** What the three kinds ask for; those that ask for keys do so only if there are any. */
  datatype Subjects = Subjects(kinds: seq<int>, authors: seq<string>, tags: seq<F.FilterTag>) {
    function Of(k: Kind): Subject {
      match k
      case Global => Subject(kinds, [], [])
      case Author => Subject([], authors, [])
      case Tag => Subject([], [], tags)
    }

    predicate Wants(k: Kind) {
      match k case Global => true case Author => authors != [] case Tag => tags != []
    }

    ghost predicate AskedBy(task: Task) {
      Wants(task.kind) && Asks(task.filter, Of(task.kind))
    }
  }

  /** The query of an attempt, spelled out: the first kind asks for some kinds of events whoever made them, the
      second for everything by the authors, the third for what the tags ask for. */
  ghost predicate IsQueryFor(task: Task, kinds: seq<int>, authors: seq<string>, tags: seq<F.FilterTag>) {
    && task.filter.ids == []
    && match task.kind
       case Global => task.filter.kinds == kinds && task.filter.authors == [] && task.filter.tags == map[]
       case Author =>
         && authors != [] && task.filter.authors == authors
         && task.filter.kinds == [] && task.filter.tags == map[]
       case Tag =>
         && tags != [] && task.filter.tags == F.TagMap(tags)
         && task.filter.kinds == [] && task.filter.authors == []
  }

  lemma AskedByMeans(task: Task, s: Subjects)
    requires s.AskedBy(task)
    ensures IsQueryFor(task, s.kinds, s.authors, s.tags)
  {
  }

  lemma WantedAre(s: Subjects)
    ensures s.Wants(Global) && (s.Wants(Author) <==> s.authors != []) && (s.Wants(Tag) <==> s.tags != [])
  {
  }

  /** What is asked for with these public keys: metadata, recommended relays, contacts and relay lists by anybody,
      everything by the authors, and everything that tags the last one of the keys. */
  ghost predicate AsksFor(task: Task, keys: PublicKeys) {
    && task.filter.ids == []
    && match task.kind
       case Global => task.filter.kinds == [0, 2, 3, 10002] && task.filter.authors == [] && task.filter.tags == map[]
       case Author =>
         && keys.authors != [] && task.filter.authors == keys.authors
         && task.filter.kinds == [] && task.filter.tags == map[]
       case Tag =>
         && keys.tagged != [] && task.filter.tags == map["p" := keys.tagged[|keys.tagged| - 1]]
         && task.filter.kinds == [] && task.filter.authors == []
  }

  lemma {:induction false} OneTagIsLeft(keys: seq<string>)
    requires keys != []
    ensures F.TagMap(TagsOf(keys)) == map["p" := keys[|keys| - 1]]
  {
    var n := |keys| - 1;
    var tags := TagsOf(keys);
    assert tags[..n] == TagsOf(keys[..n]);
    assert tags[n] == F.FilterTag("p", keys[n]);
    if n > 0 {
      OneTagIsLeft(keys[..n]);
    }
  }

  lemma QueryAsksFor(task: Task, keys: PublicKeys)
    requires IsQueryFor(task, GLOBAL_KINDS, keys.authors, TagsOf(keys.tagged))
    ensures AsksFor(task, keys)
  {
    if keys.tagged != [] {
      OneTagIsLeft(keys.tagged);
    }
  }
}
