# Workout metrics calculator

A model of `homework.py`, a fitness tracker's calculator. A sensor package arrives as a
three-letter workout code and a list of readings. The reader builds the matching workout:
running (`RUN`), sports walking (`WLK`) or swimming (`SWM`). The workout then reports its
distance in km, its mean speed in km/h and its spent kilocalories. `show_training_info`
collects these into an `InfoMessage` summary.

- `workouts.dfy` (module `Workouts`) models the base class `Training` and its three
  subclasses as one datatype with a constructor per subclass. Each getter becomes a
  function that matches on the variant. A subclass override is the case of that variant.
  Class constants such as `LEN_STEP`, `M_IN_KM` and the calorie coefficients become named
  constants. The summary record `InfoMessage` and `show_training_info` are in the same
  module.
- `package.dfy` (module `Package`) models `read_package`. It has the code-to-class table,
  the tuple unpacking of the readings, and the `None` result for an unknown code. `Code` and
  `Readings` are its inverse: they give the code a workout is sent under and its readings
  in constructor order.
- `samples.dfy` (module `Samples`) holds the three packages of the demonstration driver as
  lemma instances, plus a few malformed packages.

Numbers are exact reals, so `0.65`, `1.38` and `0.278` are the exact decimals. The
source's readings are Python numbers: integers in the sample data, and floats elsewhere.
The model takes every reading as a `real`, including the step count and the pool fields.
Python does not enforce the `int` annotations on these parameters. A division by zero
raises `ZeroDivisionError` in the source, and no code catches it. The model states these
cases as preconditions: `duration != 0` for speed and calories, and `height != 0` for
walking calories. Negative values are allowed, as in the source. The positivity results
assume `Plausible` inputs: non-negative counts, and positive duration, weight and height.

Calling `show_training_info` twice on one workout gives the same summary. In the model
this is immediate, because `ShowTrainingInfo` is a function of the workout's immutable
fields.

Worked out exactly, the running sample (15000 steps, 1 h, 75 kg) gives 797.805 kcal. The walking sample (9000 steps, 1 h, 75 kg, 180 cm) gives 349.251747525 kcal.
The swimming sample gives exactly 336 kcal at 1 km/h.

## Model

| member | source | states |
|---|---|---|
| Workouts.ClassName | homework.py:52 | the class name is "Running", "SportsWalking" or "Swimming", each exactly for its own variant |
| Workouts.LenStep | homework.py:23-24 | the step length is 0.65 m for running and walking and the 1.38 m stroke exactly for Swimming (lines 85 and 110 set 0.65 for walking and 1.38 for swimming); it is always positive |
| Workouts.Distance | homework.py:36-39 | the distance in km times 1000 equals steps times step length; the distance is non-negative exactly when the step count is |
| Workouts.MeanSpeed | homework.py:41-44 | for running and walking, speed times duration gives back the distance; for swimming it gives back the pool km instead (the override at lines 125-129); the speed is non-negative for plausible inputs; needs a non-zero duration |
| Workouts.PoolKm | homework.py:127-128 | the pool km times 1000 equals pool length times pools crossed; it is non-negative for a non-negative pool length and count, and zero exactly when one of them is zero |
| Workouts.SwimmingSpeedIgnoresStrokes | homework.py:125-129 | the swimming speed does not depend on the stroke count |
| Workouts.Calories | homework.py:50-56 | the calories the summary reports, by the variant's own formula at its own mean speed, are positive for plausible inputs |
| Workouts.CaloriesOf | homework.py:75-135 | each variant's calorie formula is positive for plausible inputs at a non-negative speed |
| Workouts.RunningCalories | homework.py:75-81 | running calories are positive for a non-negative speed and positive weight and duration; at zero speed only the 1.79 shift is left |
| Workouts.WalkingCalories | homework.py:100-103 | walking calories are at least the 0.035 kcal/kg/min baseline, which is positive, for positive weight, duration and height; at zero speed they equal that baseline; a zero height is excluded because the source divides by it |
| Workouts.SwimmingCalories | homework.py:131-135 | swimming calories are positive for a non-negative speed and positive weight and duration; at zero speed they are 1.1 * 2 * kg * hours |
| Workouts.RunningCaloriesByDistance | homework.py:75-81 | running calories times 1000 equal (18 * km + 1.79 * hours) * kg * 60, so the formula in terms of speed agrees with one in terms of distance |
| Workouts.SwimmingCaloriesByPoolKm | homework.py:131-135 | swimming calories equal 2 * kg * (pool km + 1.1 * hours) |
| Workouts.WalkingCaloriesMonotone | homework.py:100-103 | for plausible inputs, walking calories do not decrease as the speed grows |
| Workouts.CaloriesOfMonotone | homework.py:75-135 | for plausible inputs, each variant's calorie formula does not decrease as the speed grows |
| Workouts.CaloriesMonotoneInSteps | homework.py:36-44 | for running and walking, more steps in the same time never give fewer calories |
| Workouts.CaloriesOfPerKilogram | homework.py:75-135 | at a fixed speed, every calorie formula scales linearly with the weight |
| Workouts.MeanSpeedIgnoresWeight | homework.py:41-44 | changing a workout's weight leaves its mean speed unchanged |
| Workouts.CaloriesProportionalToWeight | homework.py:46-56 | scaling a workout's weight by k scales its calories by k, with the speed unchanged |
| Workouts.ShowTrainingInfo | homework.py:50-56 | the summary carries the class name and the duration unchanged, the distance and calories from the getters, and a speed that matches the variant (distance over time, or pool km over time for a swim); all metrics are non-negative for plausible inputs, and calories are positive |
| Package.Arity | homework.py:150-160 | a known code's constructor takes 3 to 5 readings (5 for SWM, 3 for RUN, 4 for WLK) |
| Package.Code | homework.py:144-146 | every workout's code is in the table and maps back to the workout's class name |
| Package.Readings | homework.py:151-160 | a workout's readings are as many as its code's constructor takes, and start with steps, duration and weight |
| Package.ReadPackage | homework.py:142-160 | an unknown code gives no workout; a known code with the wrong number of readings fails to unpack, reporting expected and actual counts; otherwise the workout built is of the class the table maps the code to |
| Package.ReadPackageRoundTrip | homework.py:142-160 | reading a workout's own code and readings rebuilds exactly that workout |
| Package.ReadPackageBuiltExactly | homework.py:142-160 | any workout the reader builds came from its own code and its readings in constructor order, with nothing dropped, padded or reordered |
| Samples.SwimmingSample | homework.py:171 | SWM with 720, 1, 80, 25, 40 builds that swim: 0.9936 km, 1 km/h, 336 kcal |
| Samples.RunningSample | homework.py:172 | RUN with 15000, 1, 75 builds that run: 9.75 km, 9.75 km/h, 797.805 kcal |
| Samples.WalkingSample | homework.py:173 | WLK with 9000, 1, 75, 180 builds that walk: 5.85 km, 5.85 km/h, 349.251747525 kcal |
| Samples.SwimmingOverrideDiffersFromInherited | homework.py:125-129 | on the sample swim, the inherited distance-over-time speed would be 0.9936, but the override gives 1 |
| Samples.MalformedSamples | homework.py:148-160 | an unknown code gives no workout, and too few or too many readings fail to unpack with the expected and actual counts |

## Left out

- `InfoMessage.get_message` (homework.py:10-15): the text template and the three-decimal rounding of Python floats are not modelled. The summary record stops at its five fields.
- `main` and the `__main__` loop (homework.py:162-178): console printing. Their three packages appear only as the lemmas in `Samples`.
- `Training.get_spent_calories` in the base class (homework.py:46-48) returns `None`. No code builds a bare `Training`, so the datatype has no base variant.
- Floating point: every formula is exact over reals. Binary rounding of the constants and of the intermediate results is not modelled.
- Division by zero: the `ZeroDivisionError` raised for a zero duration, or for a zero height in walking calories, is a precondition here, not an error value.
- Non-list or non-numeric readings and a non-string code: the model types the code as a string and the readings as a sequence of reals.
