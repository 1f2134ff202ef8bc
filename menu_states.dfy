/** The state of a controlled context menu, as the menu library reports it;
    absent before the menu has been opened once. */
module MenuStates {
  datatype MenuState = Opening | Open | Closing | Closed
}
