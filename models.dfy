/** The two persisted entities: a spin, and the game session that owns its spins. */
module Models {
  import opened Wrappers
  import opened Money

  /** One recorded outcome: the wheel segment that came up, the stake and the profit or loss. */
  datatype Spin = Spin(id: nat, sessionId: nat, result: string, betAmount: Cents, pl: Cents)

  /**
   * A session owned by one user. `spins` is kept in insertion order, which is the order of
   * their creation timestamps; `endTime` is None while the session is open.
   */
  datatype Session = Session(id: nat, userId: nat, startTime: int, endTime: Option<int>, spins: seq<Spin>)
  {
    predicate IsOpen() {
      endTime.None?
    }
  }
}
