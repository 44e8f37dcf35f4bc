/**
 * The state shared by the bird, the clouds and the window: the round state and
 * the held keys (the `GameData` record of the game, with its `m_input` bitset
 * as the set of bits that are on).
 */
module GameState {

  datatype State = Playing | GameOver

  datatype Input = Up | Down

  datatype GameData = GameData(state: State, input: set<Input>)
}
