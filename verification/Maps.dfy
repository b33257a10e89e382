/** Offsets by partition, as clients and brokers keep them: a partition never mentioned is at zero. */
module Maps {
  function At(m: map<nat, nat>, p: nat): nat { if p in m then m[p] else 0 }
}
