/** Names and constants of the sharded scheduler (src/scheduler/shard.rs). */
module Shards {
  type Shard = string  // the shard id in decimal, as the sorted sets hold it
  type ScheduleId = string

  const LOCK_TTL: int := 30_000
}
