/** Small shared vocabulary: optional values, topic partitions, picking from a set. */
module Common {
  datatype Option<+T> = None | Some(value: T)

  datatype TopicPartition = TopicPartition(topic: string, partition: int)

  lemma EmptyOrInhabited<T>(s: set<T>)
    ensures s == {} || exists y :: y in s
  {
  }

  /** A member of a non-empty set. */
  lemma Pick<T>(s: set<T>) returns (y: T)
    requires s != {}
    ensures y in s
  {
    EmptyOrInhabited(s);
    y :| y in s;
  }
}
