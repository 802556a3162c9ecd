includes = ["**/*.dfy"]
