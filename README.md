# IoT network simulator: packet lifecycle

This project models the packet lifecycle of a small IoT sensor-network simulation and proves properties of it in Dafny.

- A device (`IoTDevice`, device.py) runs two cooperative processes over a FIFO `data_buffer`:
  - The generation process stamps a reading with the current virtual time and the device name, appends it, and sleeps `1 / data_rate`.
  - The transmission process pops the oldest reading. It then either waits a random delay and hands the reading to the gateway, or loses it. When the buffer is empty it polls every 0.1 s.
- The gateway (`IoTNetwork`, network.py) stamps each packet it receives with its arrival time. It appends the packet to an append-only list. An interference process only sleeps and logs.

How the model is built:

- Each `while True` body is one step method.
- The virtual time `now` and the step's random draws are inputs. Each input is constrained to the range its random call returns.
- Each step returns the timeout it would yield.
- `Device.Run` replays a sequence of steps into a `History`: still buffered, popped, delivered (as stamped) and lost.
- `Device.Readings` is an independent definition of everything generated.
- The lemmas relate the two over every run in which time never goes back.
- `IoTDevice` keeps its steps as ghost state, with two ghost counters: `generated` (every reading so far) and `history` (the replayed run, holding what was delivered and how many were lost). Its `Valid()` ties the real buffer and both counters to the steps.

Files:
- `wrappers.dfy`: `Option` and `Result`.
- `packet.dfy`: the packet and its latency.
- `network.dfy`: the gateway.
- `device.dfy`: the device, its run model and the lemmas.

## Model

| member | source | states |
|---|---|---|
| Network.Stamp | network.py:11 | the stored packet has `receivedAt == now`; `timestamp`, `value` and `device` are unchanged, so its latency is `now - timestamp` |
| Network.IoTNetwork.constructor | network.py:4-7 | a fresh gateway has no received packets and is named "Central Gateway" |
| Network.IoTNetwork.ReceivePacket | network.py:9-12 | the stamped packet is appended at the end; the list grows by exactly one and earlier entries are unchanged |
| Network.IoTNetwork.SimulateInterferenceStep | network.py:15-19 | an interference turn asks for a timeout in [5, 10]; it has no modifies clause, so it changes no received list and no device buffer |
| Device.GenerateTimeout | device.py:18 | the generation timeout exists exactly when `data_rate > 0`, is positive and satisfies `timeout * data_rate == 1`; a zero rate is a division by zero and a negative rate a refused negative delay |
| Device.Transmit | device.py:23-33 | a transmission turn finds the buffer empty exactly when it does nothing; otherwise it always takes the front packet, and delivers it exactly when the draw is strictly above 0.01 (a draw of 0.01 is a loss) |
| Device.FrontArrivesLate | device.py:24-30 | when time never goes back, the packet a transmission turn hands over at `now + delay` arrives at least 0.1 s after it was generated |
| Device.IoTDevice.constructor | device.py:5-9 | a fresh device has an empty buffer, the given name and rate (default 3.0), and nothing generated, delivered or lost |
| Device.IoTDevice.GenerateDataStep | device.py:11-18 | one turn appends exactly `Reading(name, now, value)` at the end of the buffer (value in [30, 40]), leaves delivered and lost unchanged, keeps generated = buffered + delivered + lost, and yields `1 / data_rate` |
| Device.IoTDevice.SendDataStep | device.py:20-35 | on a non-empty buffer exactly the front packet is removed; it is delivered iff the draw is strictly above 0.01, in which case the gateway's list gains exactly the packet stamped at `now + delay` and the timeout is `delay`; otherwise it is counted lost, with no timeout; an empty buffer is left unchanged with a 0.1 s poll; generated = buffered + delivered + lost and the "every arrival at least 0.1 s after generation" invariant of the gateway's list are kept |
| Device.RunKeepsOrder | device.py:16-24 | over any run, the generated readings equal the popped packets followed by the buffer: packets leave in generation order, none skipped or duplicated |
| Device.DepartedSplit | device.py:24-33 | counts: the number of popped packets equals the number delivered plus the number lost |
| Device.RunConserves | device.py:15-33 | generated = still buffered + delivered + lost, so the gateway never receives more packets from a device than it generated |
| Device.BufferedPackets | device.py:15-16 | every buffered packet is this device's, has no `received_at`, has a value in [30, 40] and was generated no later than the current step |
| Device.RunLatency | device.py:24-30 | when time never goes back, every delivered packet is this device's, is stamped, has a value in [30, 40] and `received_at - timestamp >= 0.1` |
| Device.NoLossWithoutLossDraw | device.py:27-33 | if every transmission draw is above 0.01, no packet is lost, and the gateway receives exactly the popped packets, in pop order, each changed only by its `received_at` stamp |
| Device.NoDeliveryWithOnlyLossDraws | device.py:27-33 | if every transmission draw is at most 0.01, the gateway receives nothing from the device |

Two behaviours of the code are kept as written:

- The code does not check `data_rate` at construction.
  - The first generation turn still appends its reading (device.py:16).
  - Only then does it ask for its timeout (device.py:18). A zero rate fails in the division `1 / data_rate`. A negative rate divides fine, but the scheduler's `env.timeout` refuses the negative delay.
  - `GenerateDataStep` returns either failure as a `Result` after the append.
- The device's default rate is 3.0 (device.py:5). The 0.5 to 2.0 range belongs to the driver, which is not modelled.

## Left out

- The discrete-event scheduler (`env.timeout`, `env.process`, `env.run(until=...)`) is not part of this model. The virtual time is an input that the step methods require never to decrease. The run horizon is not modelled.
- A transmission turn is modelled as one atomic step: the pop happens at `now` and the hand-off at `now + delay`. Generation turns of the same device that fall inside the wait only append to the buffer, so they commute with the rest of the turn.
- The random calls (`random.uniform`, `random.random`) are not modelled as generators. Their results are step inputs constrained to their ranges.
- A transmission turn on an empty buffer takes `delay` and `draw` inputs it ignores; the code draws nothing in that case.
- Floating point: times, values and `1 / data_rate` are exact reals.
- The `print` logging in device.py and network.py, and its `°C` and two-decimal formatting, are not modelled.
- Python dictionary aliasing: the popped dictionary has one owner when the gateway writes `received_at` into it, so the model stores a stamped copy (`Stamp`).
- There is no whole-simulation lemma over several devices sharing one gateway. Each device's facts hold for its own run. `SendDataStep` says exactly what the gateway's list gains, so the counts and the latency bound compose across devices.
- Arrival order across devices is not captured. The gateway's list in the model is in the order the transmission turns start, not the order packets arrive (network.py:12). Example: device A pops at 1.0 with delay 0.5 and device B pops at 1.1 with delay 0.1. The code's list is [B at 1.2, A at 1.5]. The model's is [A at 1.5, B at 1.2]. One device's own arrivals stay in its pop order.
- Device.IoTDevice.GenerateDataStep: after it returns a `Failure`, the device stays `Valid()` and can take further steps. In the code the exception leaves the generator and ends the whole `env.run`, so no process takes another step. Runs that continue after a fault are over-approximated.
- main.py (`run_simulation`), GUI.py and visualize.py are not part of this model.
